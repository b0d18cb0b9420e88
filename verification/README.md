# A/B-test simulator core, modelled in Dafny

This project models the decision and bookkeeping logic of an A/B-testing
simulator. The simulator compares a control arm and a test arm on a 0/1
"converted" outcome. It covers:

- **Configuration** (`Configuration`, config.py): a validator with a fixed
  check order (baseline rate, sizes, alpha, alternative). It either raises or
  stores its arguments unchanged. A baseline + uplift outside [0, 1.0001]
  only logs a warning.
- **Dataset** (`DataSets`, `Frames`, data_generator.py). Two supplied
  tables are adopted only when both are given. Adoption checks that each has
  a numeric `converted` column and overwrites the configured sizes with the
  observed ones. Otherwise two synthetic arms are drawn:
  - The control arm has `n_control` rows drawn at the baseline rate.
  - The test arm has `n_test` rows drawn at `min(baseline + uplift, 1)`.
  - User ids run 0 .. n_control+n_test-1 across the two arms.

  A table is a row count plus named columns that are numeric or textual, each
  with one cell per row (a subset type). The random draws are a `Sampler`
  function. For one configuration the seed fixes the draws. The test draws
  continue numpy's single stream after the control draws, so they also depend
  on the control arm's size and rate.
- **Analyzer** (`Analysis`, `Samples`, tester.py):
  - The conversion rate is the mean of the `converted` column.
  - The Wald interval is undefined for an empty table. It is the point
    `(p, p)` when the rate is 0 or 1, and `p -/+ z*se` otherwise. It is always
    two-sided, whatever the configured alternative.
  - The Welch t-test is delegated to an abstract primitive.
  - `run_analysis` rejects an empty arm before writing anything. It then
    fills a fixed set of thirteen keys in the analyzer's result mapping.
- **Reporter** (`Reporting`, reporter.py):
  - It refuses an empty result mapping.
  - Its decision alpha is the results' `alpha`, or 0.05 when that key is
    missing.
  - It rejects the null hypothesis iff `p_value < alpha`.
  - A rejection gets a directional note when the alternative allows one.
  - The relative difference is reported only when the control rate is
    positive.
  - The chart's error bars have lengths `rate - lower` and `upper - rate`.

Three numerical primitives are fields of a `Primitives` value passed in:
`np.sqrt`, `stats.norm.ppf` and `stats.ttest_ind(equal_var=False)`. They are
otherwise uninterpreted. The predicate `Analysis.Sound` collects the only facts
the proofs assume:
- the square root of a non-negative number is a non-negative root;
- the normal quantile is non-negative on [1/2, 1).

Errors are values of `Outcomes.Error` carried by a `Result`. Two NaN results
are represented, as an `Option` that is `None`: the mean of a column without
rows, and the interval of such a column. No other NaN is represented.

Some of the source's behaviour, as modelled:
- A negative baseline + uplift only triggers the constructor's warning. The
  sampler then refuses the negative probability, so generation fails
  (`DataSets.ValidConfigGenerates`). The rate is capped above only.
- Loading checks the dtype of `converted`, not that its values are 0 or 1
  (`DataSets.NumericCheckAdmitsNonBinary`).
- `run_analysis` writes its fields one at a time. A failing rate for the test
  arm would leave `control_conversion` written. That can only happen on a
  dataset not built by the dataset constructor. A t-test that refuses the
  alternative leaves the first seven fields written. scipy refuses any
  alternative other than 'two-sided', 'less' and 'greater', and only a
  configuration the constructor did not build can carry one
  (`Analysis.BuiltDataSetRunsAtomically`).
- The summary formats `results['alpha']` itself before it decides. So the
  reporter's 0.05 default never reaches the verdict: a mapping without
  `alpha` makes the summary fail (`Reporting.SummaryDecidesWithResultsAlpha`).
- `Series.mean` of an empty `converted` column is NaN. tester.py passes it
  on rather than raising (tester.py:27), so the rate of an empty table is
  `None`, not an error.
- `_load_existing_data` accepts tables without rows (data_generator.py:36-49).
  Only `run_analysis` rejects them later.
- config.py and data_generator.py signal every invalid input with
  `ValueError`. The model tells the causes apart by `Error` kind.
- Generation seeds numpy before any draw (data_generator.py:57-58). A seed
  outside [0, 2^32 - 1] passes the constructor and fails there
  (`InvalidSeed`).

## Model

| member | source | states |
|---|---|---|
| Configuration.NewConfig | config.py:32-50 | Construction succeeds exactly when 0 <= baseline <= 1, both sizes > 0, 0 < alpha < 1 (strict) and the alternative is one of 'two-sided', 'less', 'greater'. With several invalid fields the earliest check in that order decides the error. On success every field is stored as given. The rate-sum warning is raised exactly when the baseline is valid and baseline + uplift leaves [0, 1.0001]. |
| Configuration.DefaultsConstruct | config.py:11-18 | The constructor's defaults (1000 and 1000 users, baseline 0.10, uplift 0.00, alpha 0.05, seed 42, 'two-sided') are accepted without a warning and stored as given. |
| Configuration.UpliftOnlyWarns | config.py:34-36 | Changing only the uplift never changes whether construction succeeds, nor which error it raises. |
| DataSets.NewDataSet | data_generator.py:29-32 | With both tables supplied the outcome is that of loading them. With one or none supplied it is that of generation. Every dataset built has a numeric `converted` column in both arms and configured sizes equal to the table sizes. When both tables are supplied, those tables are the arms. |
| DataSets.LoneTableIgnored | data_generator.py:29-32 | Supplying only one table gives exactly the outcome of generation, as if no table had been supplied. |
| DataSets.Load | data_generator.py:36-49 | Loading succeeds exactly when both tables have a numeric `converted` column. A missing column in either table is reported before a non-numeric one. When both columns exist, the only error is the non-numeric one. On success the tables are kept unchanged and only the two sizes of the configuration change, to the row counts. |
| DataSets.NumericCheckAdmitsNonBinary | data_generator.py:40-43 | A numeric `converted` column holding a value other than 0 and 1 is accepted. |
| DataSets.TestRate | data_generator.py:69-70 | The test-arm probability is at most 1 and at most baseline + uplift. It equals baseline + uplift or 1, so it is capped above only. |
| DataSets.Generate | data_generator.py:53-76 | Generation succeeds exactly when the seed is absent or in [0, 2^32 - 1], and both draw requests have a probability in [0, 1] and a non-negative size. A bad seed is reported before any draw. The arms then have n_control and n_test rows, the control draws are made at the baseline rate and the test draws at the capped rate, and the configuration is unchanged. |
| DataSets.ValidConfigGenerates | data_generator.py:57-71 | For a configuration the constructor accepted, generation succeeds exactly when the seed is one numpy accepts and baseline + uplift is not negative. |
| DataSets.DefaultConfigGenerates | data_generator.py:53-76 | The default configuration generates two arms of 1000 rows under any sampler. |
| DataSets.SyntheticIdsContiguousAndDisjoint | data_generator.py:62-76 | Control ids are 0..n_control-1 and test ids are n_control..n_control+n_test-1, so every control id is below every test id. |
| DataSets.CappedTestArmConvertsAll | data_generator.py:69-71 | When baseline + uplift >= 1, and the sampler is certain at probability 1, every test user converts. |
| DataSets.Combined | data_generator.py:87-89 | The combined table has |control| + |test| rows. Each shared column holds the control cells first, then the test cells. |
| DataSets.CombinedSyntheticIds | data_generator.py:87-89 | The combined synthetic data number their users 0..n_control+n_test-1 in order. |
| Frames.ConvertedValues | tester.py:25-27 | Reading the outcome column fails exactly when the column is missing or non-numeric, with the matching error. Otherwise it yields one value per row. |
| Analysis.ConversionRate | tester.py:23-27 | The rate fails exactly when `converted` is missing, or non-numeric in a table with rows, with that column's error. For a present column it is undefined (NaN) exactly for a table without rows, whatever the column's dtype. Otherwise it is the column's mean. |
| Analysis.UnitValuesGiveUnitRate | tester.py:23-27 | A non-empty column whose values lie in [0, 1] has a defined rate in [0, 1]. |
| Analysis.BinaryRateIsShareOfConverted | tester.py:23-27 | On a non-empty 0/1 column the rate is defined, lies in [0, 1], and times the row count gives the number of converted users. |
| Samples.BinaryMeanIsShareOfOnes | tester.py:27 | The mean of a non-empty 0/1 sample is the number of ones divided by n, and lies in [0, 1]. |
| Samples.MeanWithinBounds | tester.py:27 | A mean stays within any bounds that all the sample's values respect. |
| Samples.BinaryRateIsExtremeIffUniform | tester.py:38-40 | For a 0/1 sample, the rate is 0 exactly when every outcome is 0, and 1 exactly when every outcome is 1. These are the samples that get a point interval. |
| Analysis.ConfidenceInterval | tester.py:29-44 | A table without rows gives an undefined interval with no error. Otherwise the interval fails exactly when the rate fails. It is centred on the rate, is the point (p, p) when p is 0 or 1, and otherwise has half-width z(1 - alpha/2) * sqrt(p(1-p)/n). |
| Analysis.MarginNonNegative | tester.py:41-43 | For a rate in [0, 1] and alpha in (0, 1), the margin z*se is non-negative. |
| Analysis.IntervalContainsRate | tester.py:41-44 | For a non-empty numeric column whose rate lies in [0, 1], and alpha in (0, 1), lower <= p <= upper, whatever values produced the rate. |
| Analysis.IntervalWidth | tester.py:41-44 | For a non-empty numeric column whose rate lies in [0, 1], away from p in {0, 1}, the squared interval width is 4 z^2 p(1-p)/n. |
| Analysis.Analyze | tester.py:58-86 | The analysis fails with the empty-dataset error whenever an arm is empty. Otherwise it succeeds exactly when both arms have a numeric `converted` column and the alternative is 'two-sided', 'less' or 'greater'. The control arm's schema error comes first, then the test arm's, and last the t-test's refusal of any other alternative. On success the difference is test rate minus control rate, the intervals and the t-test come from the two arms, and alpha, alternative and sizes echo the configuration and the arm lengths. |
| Analysis.AnalysisBounds | tester.py:69-78 | With outcomes in [0, 1] and alpha in (0, 1): both rates are in [0, 1], the difference is in [-1, 1], and each interval contains its rate. |
| Analysis.IntervalsIgnoreAlternative | tester.py:42 | Changing the configured alternative leaves both intervals unchanged: they are always two-sided. Another alternative analyses exactly when scipy knows it, and the estimates written before the t-test never depend on it. |
| Analysis.SyntheticDataAnalyses | tester.py:66-86 | For an accepted configuration with baseline + uplift >= 0, generation succeeds exactly when the seed is one numpy accepts. The synthetic data then have 0/1 outcomes and always analyse, with the configured arm sizes. |
| Analysis.SyntheticDataBounds | tester.py:69-78 | Synthetic data from an accepted configuration with a valid seed and baseline + uplift >= 0 analyse with both rates in [0, 1], and each interval contains its rate. |
| Analysis.ToDict | tester.py:69-86 | A result record fills exactly the thirteen fixed keys, each with its own field: the rates, difference, bounds, t statistic, p-value and alpha as numbers, the alternative as text, the sizes as whole numbers. |
| Analysis.ResultRoundTrip | tester.py:69-86 | Reading a record's mapping back gives the same record, so no two fields share a key or lose information. |
| Analysis.MappingRoundTrip | tester.py:69-86 | A mapping with exactly the fixed keys that reads back as a record is that record's mapping. |
| Analysis.EstimatesAgreeWithRecord | tester.py:69-78 | The seven estimates a refused t-test leaves behind are the values a successful run writes under the same keys. |
| Analysis.RunAnalysis | tester.py:58-91 | A run succeeds exactly when the analysis does, and the analyzer keeps its dataset. The mapping after a failure depends on where the run stopped. An empty arm or a control-arm schema error leaves it unchanged. A test-arm schema error leaves exactly the control rate written. A t-test that refuses the alternative leaves the rates, the difference and the four interval bounds written. On success the mapping is overwritten with the record's fields and returned. No key outside the fixed set is ever written. |
| Analysis.GetResults | tester.py:93-97 | The analyzer's mapping is returned as it stands, with a warning exactly when it is empty. |
| Analysis.ResultsEmptyBeforeRun | tester.py:20 | A new analyzer returns the empty mapping, with the warning. |
| Analysis.FirstRunFillsResultKeys | tester.py:69-86 | A first successful run leaves exactly the fixed key set in the mapping. |
| Analysis.RerunIsIdempotent | tester.py:69-86 | Running twice leaves the same analyzer and the same outcome as running once, on success and on failure. |
| Analysis.BuiltDataSetRunsAtomically | tester.py:66-81 | On a dataset the constructor built, under a known alternative, a run either fills the whole key set or fails on an empty arm with the analyzer unchanged. Under any other alternative it either fails on an empty arm or stops at the t-test with the seven estimates written. |
| Reporting.NewReporter | reporter.py:18-21 | The reporter refuses exactly the empty mapping. Its decision alpha is the mapping's `alpha` when present and 0.05 otherwise. |
| Reporting.CheckReads | reporter.py:77-95 | Reading succeeds exactly when every key is present, and numeric where a number is required. Otherwise the error is that of the first read to fail, in order. |
| Reporting.Decide | reporter.py:98-111 | Reject iff p < alpha, so p == alpha fails to reject. A note appears only on rejection. 'Increase' iff difference > 0 under 'greater', 'decrease' iff difference < 0 under 'less', 'either direction' iff the alternative is 'two-sided'. |
| Reporting.OneSidedAgainstDirectionHasNoNote | reporter.py:102-107 | A one-sided rejection whose difference points the other way carries no note. |
| Reporting.GetSummary | reporter.py:77-111 | The summary succeeds exactly when every key it displays is readable. The relative difference is present iff the control rate is > 0, and then equals difference / control rate. The verdict is the decision on the stored p-value at the reporter's alpha. |
| Reporting.SummaryDecidesWithResultsAlpha | reporter.py:79 | Without an `alpha` key the summary fails. Every verdict it reaches is taken at the mapping's own alpha, never at the 0.05 default. |
| Reporting.Bar | reporter.py:36-37 | The bar spans exactly from the lower to the upper bound. Both lengths are non-negative iff the interval contains the rate. |
| Reporting.ErrorBars | reporter.py:29-37 | Bars are produced exactly when the six rate and bound keys are numeric. A missing key is reported as the first absent key in lookup order. Once every key is present, a string is reported as the first non-number in subtraction order. The bars are those of each arm's rate and interval. |
| Reporting.ResultIsReportable | reporter.py:77-111 | The mapping of any analysis record is accepted by the reporter. Its verdict is the decision on the record's p-value at the record's alpha. Its relative difference is present iff the control rate is > 0. Its error bars are the record's. |
| Reporting.AnalysisErrorBarsNonNegative | reporter.py:36-37 | For outcomes in [0, 1] and alpha in (0, 1), all four error-bar lengths of an analysed experiment are non-negative. |

## Left out

- Logging, `print` calls and the degenerate-interval warning: they are side channels. The constructor's rate-sum warning is kept as a flag.
- Markdown text layout, number formatting, the matplotlib/seaborn figure, its y-limit heuristic and its title: they are presentation. Formatting is kept only as the reason a string value in a numeric field raises.
- numpy's random generator: the draws are an abstract `Sampler`. How the stream is derived from the seed is not modelled. In particular, nothing relates the test draws of two configurations that differ in the control arm, though in numpy they come from one stream. Only the seed's accepted range is modelled.
- The mathematics of `np.sqrt`, `stats.norm.ppf` and `stats.ttest_ind`: the Welch statistic, degrees of freedom, p-value and the effect of the alternative on the p-value are left abstract.
- Floating point and NaN: reals are exact. NaN is represented only where the core produces it deliberately: an empty mean and an empty interval. A t-test that returns NaN is not represented (for example, when both arms have zero variance). Neither is the NaN that `np.sqrt` returns for a negative variance on loaded data with values outside [0, 1].
- Analysis.IntervalContainsRate: stated for rates in [0, 1] only. A loaded column whose mean leaves [0, 1] makes p(1-p) negative, and the square root of a negative number (NaN in numpy) is not modelled.
- Analysis.IntervalWidth: stated for rates in [0, 1] only, for the same reason.
- Analysis.AnalysisBounds: stated for outcomes in [0, 1] only, for the same reason and because a rate of other values can leave [0, 1].
- Reporting.AnalysisErrorBarsNonNegative: stated for outcomes in [0, 1] only, because it rests on the interval containing the rate.
- Python's dynamic typing: config fields are typed, and the reporter's `isinstance(..., dict)` check is implied by the parameter type. Result fields are numbers or strings.
- `pd.concat` on columns that only one arm has, or that differ in dtype family: pandas pads or upcasts them; the model leaves them out of the combined table.
- Reporting.ErrorBars: the error for a string among the six fields names the first key in subtraction order. Python's TypeError names no key.
- The mutation of the caller's configuration object when data are loaded: the model returns the updated configuration inside the dataset instead.
- Aliasing of the result mapping: `run_analysis` and `get_results` return the analyzer's own dict (tester.py:91, 97), and `ABTestReporter` keeps that same object (reporter.py:20). Later runs or edits by the caller therefore show through every holder. The model passes mappings as values, so each holder keeps the mapping as it was when received.
- `get_control_data` and `get_test_data`: they are the dataset's fields.
- tester_app.py: Streamlit user interface, CSV upload and error display.
