/** The reporter (reporter.py): what it accepts, the decision alpha, the
    verdict and its directional note, the relative difference, and the
    error-bar lengths of the chart. Text layout and the figure are not modelled. */
module Reporting {
  import opened Outcomes
  import opened Samples
  import opened Frames
  import opened Configuration
  import opened DataSets
  import opened Analysis

  /** The significance level used when the results carry none. */
  const DefaultAlpha: real := 0.05

  /** `ABTestReporter`: the results it was given and its decision alpha. */
  datatype Reporter = Reporter(results: ResultsDict, alpha: Value)

  /** `ABTestReporter.__init__`: refuses an empty mapping; the decision alpha
      is the results' own `alpha` when present and 0.05 otherwise. */
  function NewReporter(results: ResultsDict): (r: Result<Reporter>)
    ensures r.Ok? <==> results != map[]
    ensures r.Err? ==> r.error == EmptyResults
    ensures r.Ok? ==> r.value.results == results
    ensures r.Ok? && AlphaKey in results ==> r.value.alpha == results[AlphaKey]
    ensures r.Ok? && AlphaKey !in results ==> r.value.alpha == Num(DefaultAlpha)
  {
    if results == map[] then Err(EmptyResults)
    else Ok(Reporter(results, if AlphaKey in results then results[AlphaKey] else Num(DefaultAlpha)))
  }

  // ---------------------------------------------------------------------------
  // Reading the result mapping

  /** One key the reporter reads, and whether it then formats or compares it
      as a number (a string there raises). */
  datatype Read = Read(key: string, numeric: bool)

  predicate Readable(d: ResultsDict, read: Read)
  {
    read.key in d && (read.numeric ==> d[read.key].Num?)
  }

  /** The error a failed read raises: a missing key, or a string where a number is needed. */
  function ReadError(d: ResultsDict, read: Read): Error
  {
    if read.key !in d then MissingKey(read.key) else NotANumber(read.key)
  }

  /** Index of the first read that fails, or the number of reads when all succeed. */
  function FirstUnreadable(d: ResultsDict, steps: seq<Read>): (k: nat)
    ensures k <= |steps|
    ensures forall j :: 0 <= j < k ==> Readable(d, steps[j])
    ensures k < |steps| ==> !Readable(d, steps[k])
  {
    if |steps| == 0 then 0
    else if !Readable(d, steps[0]) then 0
    else 1 + FirstUnreadable(d, steps[1..])
  }

  /** Performs the reads in order and reports the error of the first that fails. */
  function CheckReads(d: ResultsDict, steps: seq<Read>): (e: Option<Error>)
    ensures e.None? <==> forall j :: 0 <= j < |steps| ==> Readable(d, steps[j])
    ensures e.Some? ==> exists k :: 0 <= k < |steps| && !Readable(d, steps[k])
                                    && (forall j :: 0 <= j < k ==> Readable(d, steps[j]))
                                    && e.value == ReadError(d, steps[k])
  {
    var k := FirstUnreadable(d, steps);
    if k == |steps| then None else Some(ReadError(d, steps[k]))
  }

  /** The keys the summary reads before it decides, in the order it reads them. */
  const SummaryReads: seq<Read> := [
    Read(ControlSizeKey, false), Read(TestSizeKey, false), Read(AlphaKey, true),
    Read(AlternativeKey, false),
    Read(ControlConversionKey, true), Read(CiControlLowerKey, true), Read(CiControlUpperKey, true),
    Read(TestConversionKey, true), Read(CiTestLowerKey, true), Read(CiTestUpperKey, true),
    Read(ObservedDifferenceKey, true), Read(TStatisticKey, true), Read(PValueKey, true)]

  // ---------------------------------------------------------------------------
  // The verdict

  datatype Decision = Reject | FailToReject

  /** The directional sentence added to a rejection. */
  datatype Note = Increase | Decrease | EitherDirection

  datatype Verdict = Verdict(decision: Decision, note: Option<Note>)

  /** The conclusion of the summary: reject exactly when p < alpha (equality
      fails to reject); a note only on rejection, and only when the alternative
      matches: an increase under 'greater', a decrease under 'less', either
      direction under 'two-sided'. */
  function Decide(pValue: real, alpha: real, difference: real, alternative: Value): (v: Verdict)
    ensures v.decision == Reject <==> pValue < alpha
    ensures v.note.Some? ==> v.decision == Reject
    ensures v.note == Some(Increase) <==> pValue < alpha && difference > 0.0 && alternative == Text(Greater)
    ensures v.note == Some(Decrease) <==> pValue < alpha && difference < 0.0 && alternative == Text(Less)
    ensures v.note == Some(EitherDirection) <==> pValue < alpha && alternative == Text(TwoSided)
  {
    if pValue < alpha then
      var note :=
        if difference > 0.0 && alternative == Text(Greater) then Some(Increase)
        else if difference < 0.0 && alternative == Text(Less) then Some(Decrease)
        else if alternative == Text(TwoSided) then Some(EitherDirection)
        else None;
      Verdict(Reject, note)
    else Verdict(FailToReject, None)
  }

  /** A one-sided rejection against the observed direction carries no note. */
  lemma OneSidedAgainstDirectionHasNoNote(pValue: real, alpha: real, difference: real)
    requires pValue < alpha
    ensures difference <= 0.0 ==> Decide(pValue, alpha, difference, Text(Greater)) == Verdict(Reject, None)
    ensures difference >= 0.0 ==> Decide(pValue, alpha, difference, Text(Less)) == Verdict(Reject, None)
  {
  }

  /** The parts of the Markdown summary that carry decisions. */
  datatype Summary = Summary(relativeDifference: Option<real>, verdict: Verdict)

  /** `get_summary_markdown_string`: reads the mapping in display order (a
      missing key or a string where a number is formatted raises), reports the
      relative difference only when the control rate is positive, and decides
      with the reporter's alpha. */
  function GetSummary(rep: Reporter): (r: Result<Summary>)
    ensures r.Ok? <==> CheckReads(rep.results, SummaryReads).None? && rep.alpha.Num?
    ensures CheckReads(rep.results, SummaryReads).Some? ==> r == Err(CheckReads(rep.results, SummaryReads).value)
    ensures r.Ok? ==>
      && ControlConversionKey in rep.results && rep.results[ControlConversionKey].Num?
      && ObservedDifferenceKey in rep.results && rep.results[ObservedDifferenceKey].Num?
      && PValueKey in rep.results && rep.results[PValueKey].Num? && AlternativeKey in rep.results
    ensures r.Ok? ==>
      var d := rep.results;
      && (r.value.relativeDifference.Some? <==> d[ControlConversionKey].x > 0.0)
      && (r.value.relativeDifference.Some? ==>
            r.value.relativeDifference.value * d[ControlConversionKey].x == d[ObservedDifferenceKey].x)
      && r.value.verdict == Decide(d[PValueKey].x, rep.alpha.x, d[ObservedDifferenceKey].x, d[AlternativeKey])
  {
    var d := rep.results;
    match CheckReads(d, SummaryReads)
    case Some(e) => Err(e)
    case None =>
      SummaryFieldsPresent(d);
      var control := d[ControlConversionKey].x;
      var difference := d[ObservedDifferenceKey].x;
      var relative := if control > 0.0 then Some(difference / control) else None;
      match rep.alpha
      case Text(_) => Err(NotANumber(AlphaKey))
      case Num(alpha) => Ok(Summary(relative, Decide(d[PValueKey].x, alpha, difference, d[AlternativeKey])))
  }

  /** Once the summary's reads pass, the fields it decides on are present. */
  lemma SummaryFieldsPresent(d: ResultsDict)
    requires CheckReads(d, SummaryReads).None?
    ensures && ControlConversionKey in d && d[ControlConversionKey].Num?
            && ObservedDifferenceKey in d && d[ObservedDifferenceKey].Num?
            && PValueKey in d && d[PValueKey].Num? && AlternativeKey in d
  {
    assert Readable(d, SummaryReads[4]) && Readable(d, SummaryReads[10]) && Readable(d, SummaryReads[12]);
    assert Readable(d, SummaryReads[3]);
  }

  /** The 0.05 default never reaches the verdict: the summary formats the
      results' own `alpha` before deciding and fails when it is missing, so
      every verdict it reaches is taken at the results' alpha. */
  lemma SummaryDecidesWithResultsAlpha(results: ResultsDict)
    requires NewReporter(results).Ok?
    ensures AlphaKey !in results ==> GetSummary(NewReporter(results).value).Err?
    ensures GetSummary(NewReporter(results).value).Ok? ==>
      AlphaKey in results && NewReporter(results).value.alpha == results[AlphaKey]
  {
    var rep := NewReporter(results).value;
    if GetSummary(rep).Ok? {
      assert Readable(results, SummaryReads[2]);
    }
  }

  // ---------------------------------------------------------------------------
  // Error bars of the conversion-rate chart

  /** The lengths drawn below and above a bar. */
  datatype ErrorBar = ErrorBar(below: real, above: real)

  /** Error-bar lengths `rate - lower` and `upper - rate`: the bar spans the
      interval exactly, and both lengths are non-negative exactly when the
      interval contains the rate. */
  function Bar(rate: real, lower: real, upper: real): (b: ErrorBar)
    ensures rate - b.below == lower && rate + b.above == upper
    ensures b.below + b.above == upper - lower
    ensures (0.0 <= b.below && 0.0 <= b.above) <==> lower <= rate <= upper
  {
    ErrorBar(rate - lower, upper - rate)
  }

  /** The keys the chart looks up for its bars, in the order it looks them up. */
  const BarLookups: seq<Read> := [
    Read(ControlConversionKey, false), Read(TestConversionKey, false),
    Read(CiControlLowerKey, false), Read(CiTestLowerKey, false),
    Read(CiControlUpperKey, false), Read(CiTestUpperKey, false)]

  /** The same keys in the order the subtractions use them as numbers. */
  const BarArithmetic: seq<Read> := [
    Read(ControlConversionKey, true), Read(CiControlLowerKey, true),
    Read(TestConversionKey, true), Read(CiTestLowerKey, true),
    Read(CiControlUpperKey, true), Read(CiTestUpperKey, true)]

  /** The error bars of `get_conversion_rates_plot`, control arm first. Every
      key is looked up before any subtraction, so a missing key is reported
      before a string. */
  function ErrorBars(rep: Reporter): (r: Result<(ErrorBar, ErrorBar)>)
    ensures r.Ok? <==> forall i :: 0 <= i < |BarArithmetic| ==> Readable(rep.results, BarArithmetic[i])
    ensures (exists i :: 0 <= i < |BarLookups| && BarLookups[i].key !in rep.results) ==>
      r.Err? && r.error.MissingKey?
    // the first absent key in lookup order, else the first string in subtraction order
    ensures CheckReads(rep.results, BarLookups).Some? ==> r == Err(CheckReads(rep.results, BarLookups).value)
    ensures CheckReads(rep.results, BarLookups).None? && CheckReads(rep.results, BarArithmetic).Some? ==>
      r == Err(CheckReads(rep.results, BarArithmetic).value)
    ensures r.Ok? ==>
      && ControlConversionKey in rep.results && rep.results[ControlConversionKey].Num?
      && TestConversionKey in rep.results && rep.results[TestConversionKey].Num?
      && CiControlLowerKey in rep.results && rep.results[CiControlLowerKey].Num?
      && CiTestLowerKey in rep.results && rep.results[CiTestLowerKey].Num?
      && CiControlUpperKey in rep.results && rep.results[CiControlUpperKey].Num?
      && CiTestUpperKey in rep.results && rep.results[CiTestUpperKey].Num?
    ensures r.Ok? ==>
      var d := rep.results;
      && r.value.0 == Bar(d[ControlConversionKey].x, d[CiControlLowerKey].x, d[CiControlUpperKey].x)
      && r.value.1 == Bar(d[TestConversionKey].x, d[CiTestLowerKey].x, d[CiTestUpperKey].x)
  {
    var d := rep.results;
    match CheckReads(d, BarLookups)
    case Some(e) =>
      MissingLookupBlocksArithmetic(d);
      Err(e)
    case None =>
      match CheckReads(d, BarArithmetic)
      case Some(e) => Err(e)
      case None =>
        BarFieldsPresent(d);
        Ok((Bar(d[ControlConversionKey].x, d[CiControlLowerKey].x, d[CiControlUpperKey].x),
            Bar(d[TestConversionKey].x, d[CiTestLowerKey].x, d[CiTestUpperKey].x)))
  }

  /** A key the chart cannot look up cannot be used as a number either. */
  lemma MissingLookupBlocksArithmetic(d: ResultsDict)
    requires CheckReads(d, BarLookups).Some?
    ensures !(forall i :: 0 <= i < |BarArithmetic| ==> Readable(d, BarArithmetic[i]))
  {
    assert !Readable(d, BarArithmetic[0]) || !Readable(d, BarArithmetic[2]) || !Readable(d, BarArithmetic[1])
        || !Readable(d, BarArithmetic[3]) || !Readable(d, BarArithmetic[4]) || !Readable(d, BarArithmetic[5]);
  }

  /** Once the subtractions' reads pass, the six fields are present numbers. */
  lemma BarFieldsPresent(d: ResultsDict)
    requires CheckReads(d, BarArithmetic).None?
    ensures && ControlConversionKey in d && d[ControlConversionKey].Num?
            && TestConversionKey in d && d[TestConversionKey].Num?
            && CiControlLowerKey in d && d[CiControlLowerKey].Num?
            && CiTestLowerKey in d && d[CiTestLowerKey].Num?
            && CiControlUpperKey in d && d[CiControlUpperKey].Num?
            && CiTestUpperKey in d && d[CiTestUpperKey].Num?
  {
    assert Readable(d, BarArithmetic[0]) && Readable(d, BarArithmetic[1]) && Readable(d, BarArithmetic[2]);
    assert Readable(d, BarArithmetic[3]) && Readable(d, BarArithmetic[4]) && Readable(d, BarArithmetic[5]);
  }

  // ---------------------------------------------------------------------------
  // From analysis to report

  /** Every field of a result record is readable as the reporter reads it. */
  lemma ResultDictIsReadable(a: AnalysisResult)
    ensures forall j :: 0 <= j < |SummaryReads| ==> Readable(ToDict(a), SummaryReads[j])
    ensures forall j :: 0 <= j < |BarLookups| ==> Readable(ToDict(a), BarLookups[j])
    ensures forall j :: 0 <= j < |BarArithmetic| ==> Readable(ToDict(a), BarArithmetic[j])
  {
    var d := ToDict(a);
    assert d[ControlConversionKey] == Num(a.controlConversion);
    assert d[TestConversionKey] == Num(a.testConversion);
    assert d[ObservedDifferenceKey] == Num(a.observedDifference);
    assert d[CiControlLowerKey] == Num(a.ciControl.lower);
    assert d[CiControlUpperKey] == Num(a.ciControl.upper);
    assert d[CiTestLowerKey] == Num(a.ciTest.lower);
    assert d[CiTestUpperKey] == Num(a.ciTest.upper);
    assert d[TStatisticKey] == Num(a.tStatistic);
    assert d[PValueKey] == Num(a.pValue);
    assert d[AlphaKey] == Num(a.alpha);
  }

  /** The mapping of a result record is accepted by the reporter; the summary
      decides on the record's p-value at the record's alpha, gives a relative
      difference exactly when the control rate is positive, and the error bars
      are the distances from each rate to its interval's ends. */
  lemma ResultIsReportable(a: AnalysisResult)
    ensures var rep := NewReporter(ToDict(a));
            && rep.Ok? && rep.value.alpha == Num(a.alpha)
            && GetSummary(rep.value).Ok?
            && GetSummary(rep.value).value.verdict
                 == Decide(a.pValue, a.alpha, a.observedDifference, Text(a.alternative))
            && (GetSummary(rep.value).value.relativeDifference.Some? <==> a.controlConversion > 0.0)
            && ErrorBars(rep.value)
                 == Ok((Bar(a.controlConversion, a.ciControl.lower, a.ciControl.upper),
                        Bar(a.testConversion, a.ciTest.lower, a.ciTest.upper)))
  {
    var d := ToDict(a);
    assert AlphaKey in d && d[AlphaKey] == Num(a.alpha);
    ResultDictIsReadable(a);
    var rep := NewReporter(d).value;
    assert d[ControlConversionKey] == Num(a.controlConversion);
    assert d[TestConversionKey] == Num(a.testConversion);
    assert d[ObservedDifferenceKey] == Num(a.observedDifference);
    assert d[CiControlLowerKey] == Num(a.ciControl.lower);
    assert d[CiControlUpperKey] == Num(a.ciControl.upper);
    assert d[CiTestLowerKey] == Num(a.ciTest.lower);
    assert d[CiTestUpperKey] == Num(a.ciTest.upper);
    assert d[PValueKey] == Num(a.pValue);
    assert d[AlternativeKey] == Text(a.alternative);
  }

  /** With outcomes in [0, 1], a sound toolkit and a level in (0, 1), both error bars
      of an analysed experiment have non-negative lengths. */
  lemma AnalysisErrorBarsNonNegative(ds: DataSet, pr: Primitives)
    requires Sound(pr) && AlphaValid(ds.config.alpha)
    requires Analyze(ds, pr).Ok?
    requires InUnitRange(ConvertedValues(ds.control).value) && InUnitRange(ConvertedValues(ds.test).value)
    ensures var bars := ErrorBars(NewReporter(ToDict(Analyze(ds, pr).value)).value);
            && bars.Ok?
            && 0.0 <= bars.value.0.below && 0.0 <= bars.value.0.above
            && 0.0 <= bars.value.1.below && 0.0 <= bars.value.1.above
  {
    ResultIsReportable(Analyze(ds, pr).value);
    AnalysisBounds(ds, pr);
  }
}
