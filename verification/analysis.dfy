/** The analyzer (tester.py): per-arm conversion rates, Wald intervals, the
    Welch t-test, and the result mapping a run fills in. The numerical
    primitives are parameters; `Sound` states what the proofs assume of them. */
module Analysis {
  import opened Outcomes
  import opened Samples
  import opened Frames
  import opened Configuration
  import opened DataSets

  /** A t statistic and its p-value. */
  datatype TTest = TTest(statistic: real, pValue: real)

  /** `np.sqrt`, `stats.norm.ppf` and `stats.ttest_ind(..., equal_var=False,
      alternative=...)`, left uninterpreted. */
  datatype Primitives = Primitives(
    sqrt: real -> real,
    normalQuantile: real -> real,
    welch: (seq<real>, seq<real>, string) -> TTest)

  /** The only facts the proofs use: the square root is a non-negative root on
      non-negative arguments, and the normal quantile is non-negative from the
      median up. */
  ghost predicate Sound(pr: Primitives)
  {
    && (forall x :: 0.0 <= x ==> 0.0 <= pr.sqrt(x) && pr.sqrt(x) * pr.sqrt(x) == x)
    && (forall q :: 0.5 <= q < 1.0 ==> 0.0 <= pr.normalQuantile(q))
  }

  datatype Interval = Interval(lower: real, upper: real)

  /** `_calculate_conversion_rate`: the mean of the `converted` column; `None`
      is pandas' NaN for a table without rows, which pandas returns whatever
      the column's dtype, so only a non-empty column must be numeric. */
  function ConversionRate(t: Table): (r: Result<Option<real>>)
    ensures r.Ok? <==> Converted in t.columns && (t.rows == 0 || t.columns[Converted].Numeric?)
    ensures t.rows > 0 ==> (r.Ok? <==> HasNumericConverted(t))
    ensures Converted !in t.columns ==> r == Err(MissingConvertedColumn)
    ensures r.Err? ==> r.error == ConvertedValues(t).error
    ensures r.Ok? ==> (r.value.Some? <==> t.rows > 0)
    ensures r.Ok? && r.value.Some? ==> r.value.value == Mean(ConvertedValues(t).value)
  {
    if Converted !in t.columns then Err(MissingConvertedColumn)
    else if t.rows == 0 then Ok(None)
    else
      var xs :- ConvertedValues(t);
      Ok(Some(Mean(xs)))
  }

  /** A non-empty column of values in [0, 1] has a rate in [0, 1]. */
  lemma UnitValuesGiveUnitRate(t: Table)
    requires t.rows > 0 && HasNumericConverted(t) && InUnitRange(ConvertedValues(t).value)
    ensures ConversionRate(t).Ok? && ConversionRate(t).value.Some?
    ensures 0.0 <= ConversionRate(t).value.value <= 1.0
  {
    MeanWithinBounds(ConvertedValues(t).value, 0.0, 1.0);
  }

  /** On a non-empty 0/1 column the rate is the share of converted users:
      a number in [0, 1] that, times the row count, gives the count of ones. */
  lemma BinaryRateIsShareOfConverted(t: Table)
    requires t.rows > 0 && HasNumericConverted(t) && IsBinary(ConvertedValues(t).value)
    ensures ConversionRate(t).Ok? && ConversionRate(t).value.Some?
    ensures var p := ConversionRate(t).value.value;
            && 0.0 <= p <= 1.0
            && p * (t.rows as real) == Ones(ConvertedValues(t).value) as real
  {
    BinaryMeanIsShareOfOnes(ConvertedValues(t).value);
  }

  /** The half-width `z * se` of the Wald interval at level `alpha`: always the
      two-sided quantile at 1 - alpha/2. */
  function Margin(p: real, n: nat, alpha: real, pr: Primitives): real
    requires n > 0
  {
    pr.normalQuantile(1.0 - alpha / 2.0) * pr.sqrt(p * (1.0 - p) / (n as real))
  }

  /** `_calculate_confidence_interval`: undefined for a table without rows (no
      error, and the schema is not even consulted), a point interval when the
      rate is 0 or 1, and otherwise `p -/+ z * se`. It takes no alternative: the
      interval is two-sided whatever the test's direction. */
  function ConfidenceInterval(t: Table, alpha: real, pr: Primitives): (r: Result<Option<Interval>>)
    ensures t.rows == 0 ==> r == Ok(None)
    ensures t.rows > 0 ==> (r.Ok? <==> HasNumericConverted(t))
    ensures t.rows > 0 && r.Err? ==> r.error == ConversionRate(t).error
    ensures t.rows > 0 && r.Ok? ==>
      && r.value.Some?
      && var p := ConversionRate(t).value.value;
         var iv := r.value.value;
         && iv.lower + iv.upper == 2.0 * p
         && ((p == 0.0 || p == 1.0) ==> iv.lower == p && iv.upper == p)
         && (p != 0.0 && p != 1.0 ==> iv.upper - p == Margin(p, t.rows, alpha, pr))
  {
    if t.rows == 0 then Ok(None)
    else
      var rate :- ConversionRate(t);
      var p := rate.value;
      if p == 0.0 || p == 1.0 then Ok(Some(Interval(p, p)))
      else
        var m := Margin(p, t.rows, alpha, pr);
        Ok(Some(Interval(p - m, p + m)))
  }

  lemma NonNegativeProduct(a: real, b: real)
    requires 0.0 <= a && 0.0 <= b
    ensures 0.0 <= a * b
  {
  }

  /** The margin is non-negative for a rate in [0, 1] and a level in (0, 1). */
  lemma MarginNonNegative(p: real, n: nat, alpha: real, pr: Primitives)
    requires Sound(pr) && 0.0 < alpha < 1.0 && 0.0 <= p <= 1.0 && n > 0
    ensures Margin(p, n, alpha, pr) >= 0.0
  {
    var v := p * (1.0 - p) / (n as real);
    NonNegativeProduct(p, 1.0 - p);
    assert v >= 0.0;
    var z := pr.normalQuantile(1.0 - alpha / 2.0);
    var se := pr.sqrt(v);
    NonNegativeProduct(z, se);
  }

  /** The squared margin is z^2 times the Wald variance p (1 - p) / n. */
  lemma MarginSquared(p: real, n: nat, alpha: real, pr: Primitives)
    requires Sound(pr) && 0.0 <= p <= 1.0 && n > 0
    ensures var z := pr.normalQuantile(1.0 - alpha / 2.0);
            Margin(p, n, alpha, pr) * Margin(p, n, alpha, pr) == z * z * (p * (1.0 - p) / (n as real))
  {
    var v := p * (1.0 - p) / (n as real);
    NonNegativeProduct(p, 1.0 - p);
    assert v >= 0.0;
    var z := pr.normalQuantile(1.0 - alpha / 2.0);
    var se := pr.sqrt(v);
    assert se * se == v;
    calc {
      (z * se) * (z * se);
      z * z * (se * se);
    }
  }

  /** For a rate in [0, 1] and a level in (0, 1), the Wald interval contains
      the observed rate, whatever values produced that rate. */
  lemma IntervalContainsRate(t: Table, alpha: real, pr: Primitives)
    requires Sound(pr) && 0.0 < alpha < 1.0
    requires t.rows > 0 && HasNumericConverted(t) && 0.0 <= ConversionRate(t).value.value <= 1.0
    ensures ConfidenceInterval(t, alpha, pr).Ok? && ConfidenceInterval(t, alpha, pr).value.Some?
    ensures var p := ConversionRate(t).value.value;
            var iv := ConfidenceInterval(t, alpha, pr).value.value;
            iv.lower <= p <= iv.upper
  {
    var p := ConversionRate(t).value.value;
    if p != 0.0 && p != 1.0 {
      MarginNonNegative(p, t.rows, alpha, pr);
    }
  }

  /** Away from the degenerate rates, the squared width of the interval is
      4 z^2 p (1 - p) / n: the Wald standard error, scaled by the quantile. */
  lemma IntervalWidth(t: Table, alpha: real, pr: Primitives)
    requires Sound(pr)
    requires t.rows > 0 && HasNumericConverted(t) && 0.0 <= ConversionRate(t).value.value <= 1.0
    ensures ConfidenceInterval(t, alpha, pr).Ok? && ConfidenceInterval(t, alpha, pr).value.Some?
    ensures var p := ConversionRate(t).value.value;
            var iv := ConfidenceInterval(t, alpha, pr).value.value;
            var z := pr.normalQuantile(1.0 - alpha / 2.0);
            p != 0.0 && p != 1.0 ==>
              (iv.upper - iv.lower) * (iv.upper - iv.lower)
                == 4.0 * z * z * (p * (1.0 - p) / (t.rows as real))
  {
    var p := ConversionRate(t).value.value;
    if p != 0.0 && p != 1.0 {
      var m := Margin(p, t.rows, alpha, pr);
      MarginSquared(p, t.rows, alpha, pr);
      var iv := ConfidenceInterval(t, alpha, pr).value.value;
      assert iv.upper - iv.lower == 2.0 * m;
      assert (2.0 * m) * (2.0 * m) == 4.0 * (m * m);
    }
  }

  /** The result record of one successful run. */
  datatype AnalysisResult = AnalysisResult(
    controlConversion: real,
    testConversion: real,
    observedDifference: real,
    ciControl: Interval,
    ciTest: Interval,
    tStatistic: real,
    pValue: real,
    alpha: real,
    alternative: string,
    controlSize: nat,
    testSize: nat)

  /** The analysis as one computation: it rejects an empty arm before anything
      else, then fails on the `converted` schema (control arm first), and last,
      after the rates and intervals, in the t-test, which scipy refuses for an
      alternative other than the three it knows. */
  function Analyze(ds: DataSet, pr: Primitives): (r: Result<AnalysisResult>)
    ensures Empty(ds.control) || Empty(ds.test) ==> r == Err(EmptyDataset)
    ensures r.Ok? <==> && !Empty(ds.control) && !Empty(ds.test)
                       && HasNumericConverted(ds.control) && HasNumericConverted(ds.test)
                       && AlternativeValid(ds.config.alternative)
    ensures (&& !Empty(ds.control) && !Empty(ds.test)
             && HasNumericConverted(ds.control) && HasNumericConverted(ds.test)
             && !AlternativeValid(ds.config.alternative)) ==> r == Err(UnknownAlternative)
    ensures !Empty(ds.control) && !Empty(ds.test) && !HasNumericConverted(ds.control) ==>
      r == Err(ConvertedValues(ds.control).error)
    ensures !Empty(ds.control) && !Empty(ds.test) && HasNumericConverted(ds.control) && !HasNumericConverted(ds.test) ==>
      r == Err(ConvertedValues(ds.test).error)
    ensures r.Ok? ==>
      var a := r.value;
      var xs := ConvertedValues(ds.control).value;
      var ys := ConvertedValues(ds.test).value;
      && a.controlConversion == Mean(xs) && a.testConversion == Mean(ys)
      && a.observedDifference == a.testConversion - a.controlConversion
      && Ok(Some(a.ciControl)) == ConfidenceInterval(ds.control, ds.config.alpha, pr)
      && Ok(Some(a.ciTest)) == ConfidenceInterval(ds.test, ds.config.alpha, pr)
      && TTest(a.tStatistic, a.pValue) == pr.welch(xs, ys, ds.config.alternative)
      && a.alpha == ds.config.alpha && a.alternative == ds.config.alternative
      && a.controlSize == ds.control.rows && a.testSize == ds.test.rows
  {
    if Empty(ds.control) || Empty(ds.test) then Err(EmptyDataset)
    else
      var pc :- ConversionRate(ds.control);
      var pt :- ConversionRate(ds.test);
      var ciControl := ConfidenceInterval(ds.control, ds.config.alpha, pr).value;
      var ciTest := ConfidenceInterval(ds.test, ds.config.alpha, pr).value;
      if !AlternativeValid(ds.config.alternative) then Err(UnknownAlternative)
      else
      var tt := pr.welch(ConvertedValues(ds.control).value, ConvertedValues(ds.test).value, ds.config.alternative);
      Ok(AnalysisResult(pc.value, pt.value, pt.value - pc.value, ciControl.value, ciTest.value,
                        tt.statistic, tt.pValue, ds.config.alpha, ds.config.alternative,
                        ds.control.rows, ds.test.rows))
  }

  /** With outcomes in [0, 1], a sound toolkit and a level in (0, 1): both rates are
      in [0, 1], so is the difference up to sign, and each interval holds its rate. */
  lemma AnalysisBounds(ds: DataSet, pr: Primitives)
    requires Sound(pr) && AlphaValid(ds.config.alpha)
    requires Analyze(ds, pr).Ok?
    requires InUnitRange(ConvertedValues(ds.control).value) && InUnitRange(ConvertedValues(ds.test).value)
    ensures var a := Analyze(ds, pr).value;
            && 0.0 <= a.controlConversion <= 1.0 && 0.0 <= a.testConversion <= 1.0
            && -1.0 <= a.observedDifference <= 1.0
            && a.ciControl.lower <= a.controlConversion <= a.ciControl.upper
            && a.ciTest.lower <= a.testConversion <= a.ciTest.upper
  {
    UnitValuesGiveUnitRate(ds.control);
    UnitValuesGiveUnitRate(ds.test);
    IntervalContainsRate(ds.control, ds.config.alpha, pr);
    IntervalContainsRate(ds.test, ds.config.alpha, pr);
  }

  /** The intervals do not depend on the configured alternative; only the
      t-test does: another alternative analyses exactly when scipy knows it,
      and then with the same intervals. The estimates written before the
      t-test do not depend on it at all. */
  lemma IntervalsIgnoreAlternative(ds: DataSet, alternative: string, pr: Primitives)
    requires Analyze(ds, pr).Ok?
    ensures var other := Analyze(ds.(config := ds.config.(alternative := alternative)), pr);
            && (other.Ok? <==> AlternativeValid(alternative))
            && (other.Ok? ==>
                  && other.value.ciControl == Analyze(ds, pr).value.ciControl
                  && other.value.ciTest == Analyze(ds, pr).value.ciTest)
    ensures EstimateWrites(ds.(config := ds.config.(alternative := alternative)), pr) == EstimateWrites(ds, pr)
  {
  }

  /** A validated configuration whose baseline + uplift is not negative yields
      synthetic data that analyse without error, with 0/1 outcomes and the
      configured arm sizes. */
  lemma SyntheticDataAnalyses(config: Config, draw: Sampler, pr: Primitives)
    requires Valid(config) && config.baselineRate + config.expectedUplift >= 0.0
    ensures Generate(config, draw).Ok? <==> SeedValid(config.randomSeed)
    ensures Generate(config, draw).Ok? ==>
            var ds := Generate(config, draw).value;
            && IsBinary(ConvertedValues(ds.control).value) && IsBinary(ConvertedValues(ds.test).value)
            && Analyze(ds, pr).Ok?
            && Analyze(ds, pr).value.controlSize == config.nControl
            && Analyze(ds, pr).value.testSize == config.nTest
  {
    if Generate(config, draw).Ok? {
      var ds := Generate(config, draw).value;
      assert Converted in ds.control.columns && Converted in ds.test.columns;
    }
  }

  /** Synthetic data from such a configuration meet the analysis bounds: both
      rates lie in [0, 1], and each interval contains its rate. */
  lemma SyntheticDataBounds(config: Config, draw: Sampler, pr: Primitives)
    requires Sound(pr) && Valid(config) && config.baselineRate + config.expectedUplift >= 0.0
    requires SeedValid(config.randomSeed)
    ensures Generate(config, draw).Ok? && Analyze(Generate(config, draw).value, pr).Ok?
    ensures var a := Analyze(Generate(config, draw).value, pr).value;
            && 0.0 <= a.controlConversion <= 1.0 && 0.0 <= a.testConversion <= 1.0
            && a.ciControl.lower <= a.controlConversion <= a.ciControl.upper
            && a.ciTest.lower <= a.testConversion <= a.ciTest.upper
  {
    SyntheticDataAnalyses(config, draw, pr);
    var ds := Generate(config, draw).value;
    BinaryIsInUnitRange(ConvertedValues(ds.control).value);
    BinaryIsInUnitRange(ConvertedValues(ds.test).value);
    AnalysisBounds(ds, pr);
  }

  // ---------------------------------------------------------------------------
  // The result mapping and the stateful analyzer

  /** A field of the result mapping: a number or a string. */
  datatype Value = Num(x: real) | Text(s: string)

  type ResultsDict = map<string, Value>

  const ControlConversionKey: string := "control_conversion"
  const TestConversionKey: string := "test_conversion"
  const ObservedDifferenceKey: string := "observed_difference"
  const CiControlLowerKey: string := "ci_control_lower"
  const CiControlUpperKey: string := "ci_control_upper"
  const CiTestLowerKey: string := "ci_test_lower"
  const CiTestUpperKey: string := "ci_test_upper"
  const TStatisticKey: string := "t_statistic"
  const PValueKey: string := "p_value"
  const AlphaKey: string := "alpha"
  const AlternativeKey: string := "alternative_hypothesis"
  const ControlSizeKey: string := "control_size"
  const TestSizeKey: string := "test_size"

  /** The fixed key set every successful run writes. */
  const ResultKeys: set<string> := {
    ControlConversionKey, TestConversionKey, ObservedDifferenceKey,
    CiControlLowerKey, CiControlUpperKey, CiTestLowerKey, CiTestUpperKey,
    TStatisticKey, PValueKey, AlphaKey, AlternativeKey, ControlSizeKey, TestSizeKey}

  /** The record laid out under the source's key names. */
  function ToDict(a: AnalysisResult): (d: ResultsDict)
    ensures d.Keys == ResultKeys
    ensures && d[ControlConversionKey] == Num(a.controlConversion)
            && d[TestConversionKey] == Num(a.testConversion)
            && d[ObservedDifferenceKey] == Num(a.observedDifference)
            && d[CiControlLowerKey] == Num(a.ciControl.lower)
            && d[CiControlUpperKey] == Num(a.ciControl.upper)
            && d[CiTestLowerKey] == Num(a.ciTest.lower)
            && d[CiTestUpperKey] == Num(a.ciTest.upper)
            && d[TStatisticKey] == Num(a.tStatistic)
            && d[PValueKey] == Num(a.pValue)
            && d[AlphaKey] == Num(a.alpha)
            && d[AlternativeKey] == Text(a.alternative)
            && d[ControlSizeKey] == Num(a.controlSize as real)
            && d[TestSizeKey] == Num(a.testSize as real)
  {
    map[ControlConversionKey := Num(a.controlConversion),
        TestConversionKey := Num(a.testConversion),
        ObservedDifferenceKey := Num(a.observedDifference),
        CiControlLowerKey := Num(a.ciControl.lower),
        CiControlUpperKey := Num(a.ciControl.upper),
        CiTestLowerKey := Num(a.ciTest.lower),
        CiTestUpperKey := Num(a.ciTest.upper),
        TStatisticKey := Num(a.tStatistic),
        PValueKey := Num(a.pValue),
        AlphaKey := Num(a.alpha),
        AlternativeKey := Text(a.alternative),
        ControlSizeKey := Num(a.controlSize as real),
        TestSizeKey := Num(a.testSize as real)]
  }

  /** The seven fields `run_analysis` writes before the t-test. */
  const EstimateKeys: set<string> := {
    ControlConversionKey, TestConversionKey, ObservedDifferenceKey,
    CiControlLowerKey, CiControlUpperKey, CiTestLowerKey, CiTestUpperKey}

  /** The rates, their difference and the interval bounds of two non-empty,
      numeric arms, under their keys: what a run has written when the t-test
      raises. */
  function EstimateWrites(ds: DataSet, pr: Primitives): (d: ResultsDict)
    requires !Empty(ds.control) && !Empty(ds.test)
    requires HasNumericConverted(ds.control) && HasNumericConverted(ds.test)
    ensures d.Keys == EstimateKeys <= ResultKeys
  {
    var pc := ConversionRate(ds.control).value.value;
    var pt := ConversionRate(ds.test).value.value;
    var cc := ConfidenceInterval(ds.control, ds.config.alpha, pr).value.value;
    var ct := ConfidenceInterval(ds.test, ds.config.alpha, pr).value.value;
    map[ControlConversionKey := Num(pc), TestConversionKey := Num(pt),
        ObservedDifferenceKey := Num(pt - pc),
        CiControlLowerKey := Num(cc.lower), CiControlUpperKey := Num(cc.upper),
        CiTestLowerKey := Num(ct.lower), CiTestUpperKey := Num(ct.upper)]
  }

  /** The estimates a failed t-test leaves behind are the values a successful
      run writes under the same keys. */
  lemma EstimatesAgreeWithRecord(ds: DataSet, pr: Primitives)
    requires Analyze(ds, pr).Ok?
    ensures forall k :: k in EstimateKeys ==> EstimateWrites(ds, pr)[k] == ToDict(Analyze(ds, pr).value)[k]
  {
  }

  /** The number stored under `key`, if there is one. */
  function NumberAt(d: ResultsDict, key: string): (r: Option<real>)
    ensures r.Some? <==> key in d && d[key].Num?
    ensures r.Some? ==> d[key] == Num(r.value)
  {
    if key in d && d[key].Num? then Some(d[key].x) else None
  }

  /** The count stored under `key`: a whole, non-negative number. */
  function CountAt(d: ResultsDict, key: string): (r: Option<nat>)
    ensures r.Some? ==> key in d && d[key] == Num(r.value as real)
  {
    if key in d && d[key].Num? && d[key].x >= 0.0 && d[key].x.Floor as real == d[key].x
    then Some(d[key].x.Floor)
    else None
  }

  /** Reads a result record back from a mapping: the inverse of `ToDict`. */
  function FromDict(d: ResultsDict): (r: Option<AnalysisResult>)
    ensures r.Some? ==> ResultKeys <= d.Keys
  {
    if && NumberAt(d, ControlConversionKey).Some? && NumberAt(d, TestConversionKey).Some?
       && NumberAt(d, ObservedDifferenceKey).Some?
       && NumberAt(d, CiControlLowerKey).Some? && NumberAt(d, CiControlUpperKey).Some?
       && NumberAt(d, CiTestLowerKey).Some? && NumberAt(d, CiTestUpperKey).Some?
       && NumberAt(d, TStatisticKey).Some? && NumberAt(d, PValueKey).Some?
       && NumberAt(d, AlphaKey).Some?
       && AlternativeKey in d && d[AlternativeKey].Text?
       && CountAt(d, ControlSizeKey).Some? && CountAt(d, TestSizeKey).Some?
    then
      Some(AnalysisResult(
        NumberAt(d, ControlConversionKey).value, NumberAt(d, TestConversionKey).value,
        NumberAt(d, ObservedDifferenceKey).value,
        Interval(NumberAt(d, CiControlLowerKey).value, NumberAt(d, CiControlUpperKey).value),
        Interval(NumberAt(d, CiTestLowerKey).value, NumberAt(d, CiTestUpperKey).value),
        NumberAt(d, TStatisticKey).value, NumberAt(d, PValueKey).value,
        NumberAt(d, AlphaKey).value, d[AlternativeKey].s,
        CountAt(d, ControlSizeKey).value, CountAt(d, TestSizeKey).value))
    else None
  }

  /** Every field of a record survives the trip through the mapping. */
  lemma ResultRoundTrip(a: AnalysisResult)
    ensures FromDict(ToDict(a)) == Some(a)
  {
    var d := ToDict(a);
    assert (a.controlSize as real).Floor == a.controlSize;
    assert (a.testSize as real).Floor == a.testSize;
  }

  /** Conversely, a mapping that reads back as a record and holds no other key
      is exactly that record's mapping. */
  lemma MappingRoundTrip(d: ResultsDict)
    requires FromDict(d).Some? && d.Keys == ResultKeys
    ensures ToDict(FromDict(d).value) == d
  {
    var e := ToDict(FromDict(d).value);
    forall k | k in ResultKeys
      ensures e[k] == d[k]
    {
    }
  }

  /** `ABTestAnalyzer`: the dataset it reads and the mapping it has filled so far. */
  datatype Analyzer = Analyzer(dataset: DataSet, results: ResultsDict)

  function NewAnalyzer(ds: DataSet): Analyzer
  {
    Analyzer(ds, map[])
  }

  /** The analyzer after a run, and the mapping the run returned or its error. */
  datatype Run = Run(analyzer: Analyzer, outcome: Result<ResultsDict>)

  /** `run_analysis`: writes into the analyzer's mapping field by field, as the
      source does. The empty-arm check comes before any write; a schema error
      in the test arm leaves the control rate already written; a t-test that
      refuses the alternative leaves the seven estimates written. */
  function RunAnalysis(a: Analyzer, pr: Primitives): (run: Run)
    ensures run.analyzer.dataset == a.dataset
    ensures run.outcome.Ok? <==> Analyze(a.dataset, pr).Ok?
    ensures run.outcome.Err? ==> run.outcome.error == Analyze(a.dataset, pr).error
    ensures Empty(a.dataset.control) || Empty(a.dataset.test) ==> run.analyzer == a
    ensures run.outcome.Ok? ==>
      && run.analyzer.results == a.results + ToDict(Analyze(a.dataset, pr).value)
      && run.outcome.value == run.analyzer.results
    // a control-arm schema failure raises before any write
    ensures !Empty(a.dataset.control) && !Empty(a.dataset.test) && ConversionRate(a.dataset.control).Err? ==>
      run.analyzer == a
    // a test-arm schema failure leaves the control rate written
    ensures && !Empty(a.dataset.control) && !Empty(a.dataset.test)
            && ConversionRate(a.dataset.control).Ok? && ConversionRate(a.dataset.test).Err? ==>
      run.analyzer.results == a.results[ControlConversionKey := Num(ConversionRate(a.dataset.control).value.value)]
    // a t-test failure leaves the rates, difference and interval bounds written
    ensures && !Empty(a.dataset.control) && !Empty(a.dataset.test)
            && HasNumericConverted(a.dataset.control) && HasNumericConverted(a.dataset.test)
            && !AlternativeValid(a.dataset.config.alternative) ==>
      run.analyzer.results == a.results + EstimateWrites(a.dataset, pr)
    ensures run.analyzer.results.Keys <= a.results.Keys + ResultKeys
  {
    var ds := a.dataset;
    if Empty(ds.control) || Empty(ds.test) then Run(a, Err(EmptyDataset))
    else match ConversionRate(ds.control)
      case Err(e) => Run(a, Err(e))
      case Ok(pc) =>
        match Analyze(ds, pr)
        case Err(e) =>
          if ConversionRate(ds.test).Err? then Run(a.(results := a.results[ControlConversionKey := Num(pc.value)]), Err(e))
          else Run(a.(results := a.results + EstimateWrites(ds, pr)), Err(e))
        case Ok(r) =>
          var filled := a.(results := a.results + ToDict(r));
          Run(filled, Ok(filled.results))
  }

  /** What `get_results` hands back, and whether it warned that no run happened yet. */
  datatype Fetched = Fetched(results: ResultsDict, notRunWarning: bool)

  /** `get_results`: the mapping as it stands; empty until a run writes to it. */
  function GetResults(a: Analyzer): (f: Fetched)
    ensures f.results == a.results
    ensures f.notRunWarning <==> |a.results| == 0
  {
    Fetched(a.results, a.results == map[])
  }

  /** Before any run the analyzer returns the empty mapping, with a warning. */
  lemma ResultsEmptyBeforeRun(ds: DataSet)
    ensures GetResults(NewAnalyzer(ds)) == Fetched(map[], true)
  {
  }

  /** A first successful run fills exactly the fixed key set. */
  lemma FirstRunFillsResultKeys(ds: DataSet, pr: Primitives)
    requires Analyze(ds, pr).Ok?
    ensures RunAnalysis(NewAnalyzer(ds), pr).outcome.Ok?
    ensures RunAnalysis(NewAnalyzer(ds), pr).analyzer.results.Keys == ResultKeys
  {
    var d := ToDict(Analyze(ds, pr).value);
    assert map[] + d == d;
  }

  /** Running again on the same data changes nothing: the second run rewrites
      the same fields with the same values, on success and on failure alike. */
  lemma {:induction false} RerunIsIdempotent(a: Analyzer, pr: Primitives)
    ensures var first := RunAnalysis(a, pr);
            RunAnalysis(first.analyzer, pr) == first
  {
    var first := RunAnalysis(a, pr);
    var ds := a.dataset;
    if !Empty(ds.control) && !Empty(ds.test) && ConversionRate(ds.control).Ok? {
      var pc := ConversionRate(ds.control).value;
      if Analyze(ds, pr).Ok? {
        var d := ToDict(Analyze(ds, pr).value);
        assert first.analyzer.results == a.results + d;
        assert a.results + d + d == a.results + d;
      } else if ConversionRate(ds.test).Err? {
        var m := a.results[ControlConversionKey := Num(pc.value)];
        assert first.analyzer.results == m;
        assert m[ControlConversionKey := Num(pc.value)] == m;
      } else {
        var e := EstimateWrites(ds, pr);
        assert first.analyzer.results == a.results + e;
        assert a.results + e + e == a.results + e;
      }
    }
  }

  /** On a dataset as `NewDataSet` builds it, a run under an alternative scipy
      knows is all or nothing: it either fills the mapping or fails on an empty
      arm without writing. Under any other alternative it stops at the t-test
      with the seven estimates written. */
  lemma BuiltDataSetRunsAtomically(a: Analyzer, pr: Primitives)
    requires WellFormed(a.dataset)
    ensures var run := RunAnalysis(a, pr);
            AlternativeValid(a.dataset.config.alternative) ==>
              || (run.outcome.Ok? && run.analyzer.results.Keys == a.results.Keys + ResultKeys)
              || (run.outcome == Err(EmptyDataset) && run.analyzer == a)
    ensures var run := RunAnalysis(a, pr);
            !AlternativeValid(a.dataset.config.alternative) ==>
              || (run.outcome == Err(EmptyDataset) && run.analyzer == a)
              || (&& !Empty(a.dataset.control) && !Empty(a.dataset.test)
                  && run.outcome == Err(UnknownAlternative)
                  && run.analyzer.results == a.results + EstimateWrites(a.dataset, pr))
  {
    var run := RunAnalysis(a, pr);
    if run.outcome.Ok? {
      assert run.analyzer.results.Keys == a.results.Keys + ToDict(Analyze(a.dataset, pr).value).Keys;
    }
  }
}
