# Myeloma patient flow — a verified model of its core

This project models the computational core of a multiple-myeloma
patient-flow model and its dashboard metrics:

- the Weibull survival arithmetic and the regimen catalogue loader
  (`scientific_utils.py`),
- the logistic market-share engine that splits a line of therapy among the
  regimens approved so far (`adoption.py`),
- the monthly three-line stock-and-flow simulation (`lot_model.py`),
- the dashboard metrics computed from a simulation table: line occupancy,
  transition rates, regimen shares, the Sankey flow, duration statistics and
  the tornado sensitivities (`metrics.py`, and `model_metrics.py`, whose first
  five functions, `model_metrics.py:11-142`, repeat `metrics.py:10-142` and
  are modelled once, in module `Metrics`), plus the year-on-year trends, the
  novel-therapy percentage, the incidence CAGR, the analytic tornado and the
  regimen PFS table (`model_metrics.py`),
- the column selection and completion of the data loader and its choice of
  the first existing file among candidate paths (`data_loader.py`).

Modules:

| module | file | contents |
|---|---|---|
| `Common` | common.dfy | `Option`, `Result` with the exceptions the source raises, floats that may be NaN (`Float`), sums, `Filter`, the few string operations used |
| `Numerics` | numerics.dfy | `exp`, `ln` and `**` as an uninterpreted `Maths` record, with the laws the proofs use gathered in the predicate `Lawful` |
| `Frames` | frames.dfy | a pandas table of monthly rows as dates, an ordered column list and a map from column to values; the window means the metrics use |
| `Survival` | survival.dfy | `WeibullParams`, `Regimen`, `load_regimens` |
| `Adoption` | adoption.dfy | `AdoptionEngine.get_market_share` |
| `LotModel` | lot_model.dfy | `calculate_hazard`, `run_simulation` over three arrays |
| `Metrics` | metrics.dfy | occupancy, transition rates, regimen shares, Sankey, duration statistics, the simple tornado |
| `ModelMetrics` | model_metrics.dfy | trends, novel-therapy percentage, CAGR, analytic tornado, PFS table |
| `DataLoader` | data_loader.dfy | regimen columns, total completion, `_resolve`, `auto_discover_paths` |

Floating-point numbers are modelled as reals. `exp`, `log` and `**` are not
computed: every operation that uses them takes a `Maths` value, and every
property that depends on them holds for any `Maths` satisfying `Lawful`
(exp positive and increasing, ln the inverse of exp on positives, `x ** y`
as `exp(y ln x)`). Exceptions the source raises (KeyError,
ZeroDivisionError, IndexError, FileNotFoundError, the ValueError of an
empty `pd.concat`) are `Err` results; the file system is a `pathExists`
predicate passed in.

## Model

| member | source | states |
|---|---|---|
| Survival.FromMedian | scientific_utils.py:14-25 | a NaN or non-positive median gives the degenerate parameters (scale 0.1, shape 1); otherwise it fails exactly when the shape is 0 (ZeroDivisionError) and yields `scale = median / ln2^(1/shape)`; the scale is always positive |
| Survival.SurvivalAtMedianIsHalf | scientific_utils.py:17-25 | the parameters derived from a positive median make the survival at that median exactly 0.5 |
| Survival.HazardRate | scientific_utils.py:27-29 | the hazard is 0 for t ≤ 0 and positive for t > 0 with a positive shape |
| Survival.HazardConstantForShapeOne | scientific_utils.py:27-29 | with shape 1 the hazard is the constant 1 / scale |
| Survival.SurvivalProb | scientific_utils.py:31-33 | survival is 1 before time 0, never negative, and at most 1 with a positive shape |
| Survival.SurvivalAtZero | scientific_utils.py:31-33 | survival at time 0 is 1 |
| Survival.SurvivalNonIncreasing | scientific_utils.py:31-33 | survival never increases with time |
| Survival.MonthlyTransitionProb | scientific_utils.py:35-40 | the probability is 1 once survival is 0, and `1 - S(t+dt)/S(t)` otherwise |
| Survival.TransitionProbIsProbability | scientific_utils.py:35-40 | for a positive shape and a non-negative step the transition probability lies in [0, 1] |
| Survival.NewRegimen | scientific_utils.py:42-56 | a regimen keeps every given field and its Weibull parameters are those `from_median` derives with shape 1.3 |
| Survival.DefaultShape | scientific_utils.py:61-62 | the catalogue's shape is its `defaults.weibull_shape`, and 1.3 when either is absent |
| Survival.BuildRegimen | scientific_utils.py:65-75 | a missing `name`, `line` or `approval_year` raises KeyError for the first missing of the three; otherwise every field is copied with its default (eligibility "Both", PFS 0, empty citation and adoption), the line upper-cased, and the Weibull parameters re-derived with the catalogue's shape |
| Survival.LoadedWeibullShape | scientific_utils.py:70-75 | a regimen without a usable median keeps the degenerate parameters; one with a usable median takes the catalogue's shape and a positive scale |
| Survival.AssignContents | scientific_utils.py:76 | assigning a regimen by name makes it the catalogue's entry for that name and keeps every entry of another name |
| Survival.AssignKeepsDistinct | scientific_utils.py:76 | the catalogue keeps one entry per name |
| Survival.AssignNames | scientific_utils.py:76 | the catalogue's names gain exactly the assigned name |
| Survival.BuildAll | scientific_utils.py:64-75 | each entry is built on its own, in order |
| Survival.LoadRegimens | scientific_utils.py:58-78 | the loop builds and assigns the entries in order with the catalogue's default shape and stops at the first entry that fails |
| Survival.FillStep | scientific_utils.py:64-76 | one more entry either ends the load with its failure or assigns its regimen |
| Survival.AssignedDistinct | scientific_utils.py:60-76 | a loaded catalogue has distinct names |
| Survival.AssignErrorPersists | scientific_utils.py:64-76 | once an entry fails, the load fails with that error |
| Survival.AssignSucceedsIffAllBuilt | scientific_utils.py:64-76 | the loop succeeds exactly when every entry so far built |
| Survival.LoadSucceedsIffEveryEntryBuilds | scientific_utils.py:64-78 | loading succeeds if and only if every entry builds |
| Survival.AssignedNames | scientific_utils.py:64-76 | the catalogue's names are the names of the entries assigned |
| Survival.LoadedNames | scientific_utils.py:64-78 | a loaded catalogue's names are exactly the entries' names |
| Survival.AssignLaterWins | scientific_utils.py:76 | an assigned regimen stays in the catalogue unless a later one has its name |
| Survival.AssignKeepsOthers | scientific_utils.py:76 | assignment keeps every regimen of another name |
| Survival.LaterEntryWins | scientific_utils.py:64-76 | an entry whose name no later entry repeats is in the loaded catalogue, as built |
| Adoption.Candidates | adoption.py:19-29 | a regimen is a candidate exactly when its line matches (with 4L, 4L+ and 4L_PLUS interchangeable) and its eligibility is the requested one or "Both" |
| Adoption.CollectCandidates | adoption.py:19-29 | the candidate loop keeps exactly the candidates, in catalogue order |
| Adoption.FourthLineWildcard | adoption.py:21-25 | 4L+ and 4L_PLUS match a 4L request and each other; 2L does not match 4L |
| Adoption.CandidateNames | adoption.py:19-29 | the candidates' names are the names of the eligible regimens |
| Adoption.LogisticDenominator | adoption.py:54 | the logistic denominator is at least 1 |
| Adoption.RawScore | adoption.py:37-56 | a regimen not yet approved in the current year scores 0 |
| Adoption.RawScoreBounded | adoption.py:54 | a raw score lies between 0 and the regimen's peak share |
| Adoption.RawScoreAtInflection | adoption.py:50-54 | at the inflection year the score is half the peak |
| Adoption.DenominatorNonIncreasing | adoption.py:54 | with a non-negative speed the denominator does not grow with time |
| Adoption.RawScoreNonDecreasing | adoption.py:37-54 | with non-negative peak and speed a regimen's score never falls as time passes |
| Adoption.Scores | adoption.py:36-56 | every candidate is scored on its own |
| Adoption.RawShares | adoption.py:34-56 | each candidate's raw share is its score |
| Adoption.RawSharesKeys | adoption.py:34-56 | the raw shares have exactly the candidates' names as keys |
| Adoption.ScoreCandidates | adoption.py:36-56 | the scoring loop builds the raw shares |
| Adoption.SumScores | adoption.py:59 | the total is the sum of the candidates' scores |
| Adoption.TotalScoreStep | adoption.py:59 | adding one candidate adds its score to the total |
| Adoption.GetMarketShare | adoption.py:11-65 | the method computes the market-share specification: no candidates give an empty map, a negligible total an equal split, otherwise score over total |
| Adoption.MarketShareKeys | adoption.py:31-64 | the shares are keyed by exactly the names of the eligible regimens |
| Adoption.ShareOfCandidate | adoption.py:59-64 | each candidate's share is 1/n when the total is at most 1e-9 and its score over the total otherwise |
| Adoption.SharesSumToOne | adoption.py:13-64 | the shares of a non-empty candidate list sum to 1 |
| Adoption.SharesBounded | adoption.py:64 | with non-negative peaks every share lies in [0, 1] |
| Adoption.NotYetApprovedGetsNothing | adoption.py:37-64 | a regimen approved after the current year gets a zero share when the total is not negligible |
| Adoption.NegligibleScoresSplitEqually | adoption.py:60-61 | a negligible total splits the line equally among the candidates |
| LotModel.CalculateHazard | lot_model.py:30-34 | a non-positive median gives hazard 1; otherwise the hazard is positive and hazard × median = ln 2 |
| LotModel.ProgressionHazards | lot_model.py:62-64 | the three progression hazards are positive |
| LotModel.Advance | lot_model.py:117-120 | every line's new stock is non-negative |
| LotModel.Step | lot_model.py:100-120 | a month's step leaves every line non-negative |
| LotModel.StocksAt | lot_model.py:72-120 | the stocks of every month are non-negative, and the first month has no 2L or 3L+ patients |
| LotModel.AdvanceMonth | lot_model.py:73-120 | one month: it fails with IndexError exactly when the incidence index runs past the end; otherwise it stores that month's stocks and no other entry changes |
| LotModel.StoreStocks | lot_model.py:118-120 | the three arrays take the month's stocks at t and nothing else |
| LotModel.SimulateStocks | lot_model.py:72-120 | the loop succeeds exactly when the delay is non-negative (or there are no months), and then every month holds the specified stocks |
| LotModel.Truncate | lot_model.py:55 | `int()` of a float: the integer toward zero within one of it |
| LotModel.LookupAll | lot_model.py:54-69 | the values of all the keys, in order, or the KeyError of the first absent one, and it fails exactly when some key is absent |
| LotModel.ReadSimParams | lot_model.py:54-69 | the ten parameters as read, the delay truncated toward zero; a KeyError for the first absent key in the order the source reads them |
| LotModel.SimulateRows | lot_model.py:48-131 | IndexError exactly for a negative delay (with at least one month); otherwise one row per month with its date, incidence, the three line stocks and their total |
| LotModel.RunSimulation | lot_model.py:36-134 | KeyError without `Combined_Incidence`, then KeyError for the first absent parameter; then IndexError exactly for a negative delay; otherwise one row per month with its date, incidence, the stocks of `StocksAt` and their total |
| LotModel.MonthStocks | lot_model.py:75-120 | the stocks the loop computes for month t are the specified stocks of month t |
| LotModel.NoPatientsBeforeDelay | lot_model.py:75-78 | before the diagnosis-to-treatment delay has elapsed nobody is on any line |
| LotModel.StepBalance | lot_model.py:100-120 | without clamping, the total changes by the 1L starts minus deaths, 3L+ progressions and the 1L progressions that do not reach 2L |
| LotModel.AdvanceMonotone | lot_model.py:117-120 | more inflow and more retained stock give at least as large new stocks |
| LotModel.FlowsMonotone | lot_model.py:100-115 | larger stocks send no fewer patients to the next line and keep at least as many |
| LotModel.StepMonotone | lot_model.py:100-120 | a month's step is monotone in the previous stocks and the 1L starts |
| LotModel.StocksMonotoneInIncidence | lot_model.py:72-120 | more incidence in every month never gives fewer patients on any line in any month |
| Metrics.Present | metrics.py:15-16 | exactly the line columns the table has, in order |
| Metrics.Block | metrics.py:17-19 | one row per month of the line's column, labelled with the line |
| Metrics.BlocksArePresent | metrics.py:14-20 | one block per present line, each holding that line's column |
| Metrics.ComputeOccupancy | metrics.py:10-21 | ValueError when no line column is present; otherwise the blocks concatenated |
| Metrics.OccupancyRows | metrics.py:12-21 | the result has lines × months rows, and row j·months + i is month i of the j-th present line |
| Metrics.AllPresentInOrder | metrics.py:12-21 | a table with every line column yields all four lines in order |
| Metrics.RateColumn | model_metrics.py:37-40 | the first month's rate is 0, a zero stock gives 0, otherwise the positive part of the successor's increase over the stock; non-negative over a positive stock |
| Metrics.ComputeTransitionRates | model_metrics.py:26-41 | the method computes the rates table for the three transitions |
| Metrics.RateLabels | model_metrics.py:39 | the labels are 1L→2L, 2L→3L and 3L→4L+ |
| Metrics.RatesFromColumns | model_metrics.py:33-40 | a rate column exists exactly when both of its totals do, and holds their rate column |
| Metrics.RatesFromKeys | model_metrics.py:33-40 | every rate column is the label of some transition |
| Metrics.TransitionRateColumns | model_metrics.py:33-40 | each of the three rates is present exactly when both totals are, with the specified values |
| Metrics.TransitionRateOnlyLabels | model_metrics.py:31-40 | the rates table holds no other column |
| Metrics.ShareColumn | model_metrics.py:56-59 | a month with zero total has share 0, any other the regimen's count over the total |
| Metrics.ComputeRegimenShares | model_metrics.py:45-60 | the method computes the regimen-shares specification |
| Metrics.FillShares | model_metrics.py:55-59 | the loop sets one share column per regimen column, in order |
| Metrics.AddShare | model_metrics.py:57-59 | one pass adds (or overwrites) the share column of the k-th regimen |
| Metrics.RegimenSharesEmpty | model_metrics.py:47-53 | the result is an empty table exactly when the line has no regimen column or no total |
| Metrics.SharesDataColumns | model_metrics.py:57-59 | a regimen's share column is that of the last regimen column with its name |
| Metrics.SharesDataKeys | model_metrics.py:57-59 | the share columns are exactly the regimen names |
| Metrics.RegimenShareColumns | model_metrics.py:47-59 | the shares keep the dates, have one column per regimen name, and each holds the regimen's count over the line total |
| Common.Required | model_metrics.py:74 | `params[section][key]`, with KeyError for a missing section or key |
| Common.Optional | model_metrics.py:75 | the nested value, or the default when either key is absent |
| Metrics.NodeIndex | model_metrics.py:79 | the position of a node in the node list |
| Metrics.NodeIndices | model_metrics.py:77-79 | the six nodes in order |
| Metrics.ComputeSankeyData | model_metrics.py:64-130 | KeyError without New_Starts_1L or a required parameter; otherwise the Sankey of the recent mean incidence and the two probabilities |
| Metrics.BuildSankey | model_metrics.py:77-130 | the method builds the Sankey specification |
| Metrics.SankeyValues | model_metrics.py:89-121 | the six link values as products of the incidence and the probabilities |
| Metrics.SankeyFlowConservation | model_metrics.py:86-122 | each link goes to a later node, the 1st line's inflow splits into its two outflows, the 2nd line's likewise, the 3rd line passes on all it receives, ongoing care receives everyone who reached the 2nd line |
| Metrics.SankeyValuesNonNegative | model_metrics.py:93-121 | with probabilities in [0, 1] and non-negative incidence no link is negative |
| Metrics.ComputeDurationStats | metrics.py:134-142 | three rows for the three lines, with the configured medians and 24, 16, 6 months where absent |
| Metrics.SimpleTornado | metrics.py:186-209 | KeyError exactly for a missing target column; otherwise one row per parameter with the recent mean as base and ±20% as low and high |
| Metrics.SimpleTornadoRowShape | metrics.py:204-205 | the swing is symmetric about the base, low ≤ base ≤ high for a non-negative base |
| Frames.SetColumn | model_metrics.py:59 | the column is set, appended to the order only when new |
| Frames.Tail | model_metrics.py:66 | the last k values, or all when fewer |
| Frames.RecentMeanOrZero | model_metrics.py:69 | the recent mean of a present column, 0 for an absent one |
| ModelMetrics.WindowMeanNonNegative | model_metrics.py:180-183 | a window mean of a non-negative column is non-negative |
| ModelMetrics.TotalOnTreatmentNonNegative | model_metrics.py:180-181 | patients on treatment are never negative when the totals are not |
| ModelMetrics.MetricValue | model_metrics.py:179-183 | only the new-starts metric can fail, exactly when New_Starts_1L is missing |
| ModelMetrics.ArrowMeaning | model_metrics.py:187-192 | no prior or a non-positive prior gives no change and a flat arrow; otherwise the change is positive exactly when the value grew, the arrow is up exactly above +1% and down exactly below −1% |
| ModelMetrics.PercentChange | model_metrics.py:188-189 | the percentage change crosses a threshold exactly when the difference crosses that fraction of the prior |
| ModelMetrics.ComputeYoyTrends | model_metrics.py:150-197 | KeyError exactly without New_Starts_1L; otherwise the three metrics, flat with no prior under 24 months, compared recent against prior otherwise |
| ModelMetrics.CompareEach | model_metrics.py:178-197 | the loop computes the trends of every metric |
| ModelMetrics.TrendsErrorPersists | model_metrics.py:179-186 | a failing metric ends the loop with its error |
| ModelMetrics.TrendsFail | model_metrics.py:179-186 | the loop fails exactly when some metric fails, with KeyError on New_Starts_1L |
| ModelMetrics.TrendsKeys | model_metrics.py:178-196 | the result has one key per metric |
| ModelMetrics.TrendsValues | model_metrics.py:185-196 | each metric's trend compares its recent and prior values |
| ModelMetrics.MetricNames | model_metrics.py:179-184 | the three metric names |
| ModelMetrics.ComputeNovelTherapyPct | model_metrics.py:205-222 | 0 when nobody is on treatment; otherwise the recent means of the novel-regimen columns over the total on treatment, times 100 |
| ModelMetrics.NovelSumIsSumOverNovelColumns | model_metrics.py:216-221 | the loop's sum is the sum over exactly the columns naming a novel regimen |
| ModelMetrics.NovelSumBounds | model_metrics.py:216-221 | with non-negative data the novel sum lies between 0 and the sum over all columns |
| ModelMetrics.PositiveYears | model_metrics.py:240 | the kept years all have positive incidence |
| ModelMetrics.PositiveYearsMembers | model_metrics.py:240 | a year is kept exactly when its incidence is positive |
| ModelMetrics.PositiveYearsIncreasing | model_metrics.py:240-245 | filtering keeps the years in increasing order |
| ModelMetrics.RoundHalfEvenNearest | model_metrics.py:258-259 | `round` is within one half of its argument and resolves ties to the even integer |
| ModelMetrics.GrowthRateCompounds | model_metrics.py:249-252 | compounding the rate over the span recovers the end-to-start ratio |
| ModelMetrics.GrowthRateSign | model_metrics.py:249-252 | the rate is non-negative when incidence grew and non-positive when it fell |
| ModelMetrics.CagrSpan | model_metrics.py:235-247 | no CAGR exactly when fewer than two years have positive incidence; otherwise it runs from the first to the last such year |
| ModelMetrics.CagrCompounds | model_metrics.py:245-255 | the CAGR's years are the first and last positive years and its rate compounds from the first total to the last |
| ModelMetrics.AnalyticTornado | model_metrics.py:446-549 | KeyError for a missing target or New_Starts_1L; otherwise the analytic rows of the recent mean of the target |
| ModelMetrics.TornadoRows | model_metrics.py:475-549 | the method computes the four analytic rows |
| ModelMetrics.AnalyticRowsShape | model_metrics.py:477-506 | four rows named as in the source, each with the given base; treated fraction ±20% (flat at zero), P(reach 2L) 1.03 / 0.97 |
| ModelMetrics.AnalyticRowsDefined | model_metrics.py:514-541 | with non-negative mortality no division by zero occurs |
| ModelMetrics.ProgressionRatePositive | model_metrics.py:514 | the 1L progression rate is positive |
| ModelMetrics.AnalyticRowsOrdered | model_metrics.py:508-547 | for a non-negative base, more 1L mortality never raises the estimate and a longer 1L median never lowers it |
| ModelMetrics.ScaledProgressionOrder | model_metrics.py:531-534 | a median scaled by 1.2 lowers the progression rate and by 0.8 raises it |
| ModelMetrics.HazardRatioOrder | model_metrics.py:518-520 | the hazard ratio is at least 1 when the total hazard falls and at most 1 when it rises |
| ModelMetrics.ToRow | model_metrics.py:560-570 | a row copies the entry's name, PFS, citation, approval year and hazard ratio, with 0, "" and 0 for an absent PFS, citation and year; the line keeps its length and is "" when absent |
| ModelMetrics.ToRows | model_metrics.py:558-570 | one row per entry, in order |
| ModelMetrics.InsertSorted | model_metrics.py:572-575 | inserting a row into a sorted table keeps it sorted |
| ModelMetrics.InsertPermutes | model_metrics.py:572-575 | insertion adds exactly the row |
| ModelMetrics.SortRowsCorrect | model_metrics.py:572-575 | the table is sorted by line order, then by PFS descending, and is a permutation of the rows |
| ModelMetrics.InsertBeforeTies | model_metrics.py:575 | an inserted row comes before every row that agrees with it on both sort keys |
| ModelMetrics.SortKeepsTieOrder | model_metrics.py:575 | the sort is stable: the rows that agree on both keys keep their input order |
| ModelMetrics.ComputeRegimenPfsTable | model_metrics.py:553-577 | KeyError on a nameless entry; KeyError on the missing Line column of an empty list; otherwise the entries' rows sorted stably by line order and descending PFS, a sorted permutation of them |
| DataLoader.GetRegimenColumns | data_loader.py:55-58 | a column is returned exactly when it starts with the line's prefix and is not a total; no column twice |
| DataLoader.RegimenColumnsInOrder | data_loader.py:58 | the columns keep the table's order |
| DataLoader.TotalsAreNotRegimenColumns | data_loader.py:13-58 | no total column is a regimen column |
| DataLoader.MissingTotals | data_loader.py:31-33 | exactly the totals the table lacks |
| DataLoader.FillColumn | data_loader.py:34 | NaN becomes 0, everything else is kept |
| DataLoader.CompleteTotals | data_loader.py:30-35 | every total is present afterwards; the columns are the original ones followed by the missing totals; original columns keep their values with NaN as 0; added columns are all 0 |
| DataLoader.AddMissingTotals | data_loader.py:31-33 | the missing totals are appended as zero columns and nothing else changes |
| DataLoader.AddNextTotal | data_loader.py:32-33 | one pass appends the next total when it is missing |
| DataLoader.AddColumn | data_loader.py:32-33 | a present column leaves the table unchanged; a missing one is appended with the given values |
| DataLoader.MissingStep | data_loader.py:31-33 | a total is appended exactly when the table lacks it, at the end |
| DataLoader.FillMissingValues | data_loader.py:34 | every column keeps its place and has its NaN replaced by 0 |
| DataLoader.JoinAll | data_loader.py:20 | each candidate joined to the base, in order |
| DataLoader.FirstExisting | data_loader.py:19-22 | none exactly when no path exists; otherwise an existing path before which none exists |
| DataLoader.Resolve | data_loader.py:18-23 | the first existing candidate, FileNotFoundError when none exists |
| DataLoader.AutoDiscoverPaths | data_loader.py:61-95 | only the four known keys; each bound exactly when one of its candidates exists, to the first that does |
| DataLoader.DiscoverEach | data_loader.py:63-95 | the loop builds the discovered map |
| DataLoader.DiscoveredKeys | data_loader.py:63-93 | only the keys considered are bound |
| DataLoader.DiscoveredBindsFirst | data_loader.py:63-93 | with distinct keys each is bound to its first existing candidate, and absent when none exists |
| DataLoader.FirstCandidate | data_loader.py:66-71 | one candidate loop returns the first existing candidate |
| DataLoader.DiscoveryKeysDistinct | data_loader.py:66-92 | the four keys are distinct |

## Left out

- Reading and writing files (`pd.read_csv`, YAML parsing, `to_csv`), the command-line entry points, `load_config`, `load_params`, `load_legacy` and the logging: the model starts from parsed values.
- The prose and chart generators of the dashboard, which format values and compute nothing the model checks.
- `AdoptionEngine.events` and the cohort engine are not part of this model.
- `run_simulation` sorts by `Date`: the model takes the rows already in date order (a table without a `Date` column, a KeyError in the source, is not modelled).
- The metrics are specified for tables with at least one row (`f.Rows() > 0`): pandas returns NaN for the mean of an empty column, which the model does not carry through.
- `Survival.HazardRate`, `Survival.SurvivalProb` and `Survival.MonthlyTransitionProb` require a positive scale: `from_median` always produces one, and a hand-built zero scale raises ZeroDivisionError in the source, which the model does not carry.
- `Common.Upper` upper-cases ASCII letters only; Python's `str.upper` also maps other scripts.
- `pathlib` joining is modelled as joining with "/": normalisation of `..` and of absolute candidates is left out.
- The link labels of the Sankey, the "(base)" text in tornado parameter names and other string formatting are not modelled; only names, values and structure are.
- The simple tornado's parameter lookups (metrics.py:201-203) are discarded by the source and are not modelled.
- The date column is kept beside the columns rather than as one of them.
- `compute_incidence_cagr`'s `groupby` over years is taken as given: the model starts from the yearly totals in increasing year order.
- `ModelMetrics.ComputeNovelTherapyPct`: the percentage is not proved to lie in [0, 100], although the source's docstring promises it: the divisor is the sum of the four line totals, which nothing in the table ties to the regimen columns counted in the numerator.
- `ModelMetrics.ComputeRegimenPfsTable`: the `float()`, `int()` and `str()` coercions of the entry fields are taken as already done, so an entry whose field cannot be converted (a ValueError in the source) is not modelled.
- `ModelMetrics.ToRow`: states the upper-cased line only by its length and the empty case; the display mapping is the identity.
- `ModelMetrics.AnalyticTornado`: a zero total hazard in a ratio is `Err(ZeroDivision)` in the model. The source raises ZeroDivisionError only when the 1L median is not positive (plain Python floats). With a positive median the division is numpy's and gives an infinite row value, which the model, working over reals, does not represent. This needs a negative mortality hazard; `AnalyticRowsDefined` proves that a non-negative one never divides by zero.
- Floating-point rounding: floats are modelled as reals; `exp`, `log` and `**` are abstracted by the `Lawful` laws.
