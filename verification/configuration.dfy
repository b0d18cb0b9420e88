/** The experiment configuration (config.py): a validator with a fixed check
    order that either rejects its arguments or stores them unchanged. */
module Configuration {
  import opened Outcomes

  const TwoSided: string := "two-sided"
  const Less: string := "less"
  const Greater: string := "greater"

  /** The alternatives the Welch t-test accepts, as listed by the constructor. */
  const Alternatives: seq<string> := [TwoSided, Less, Greater]

  /** Upper end of the baseline + uplift range that passes without a warning;
      the slack above 1 absorbs floating-point rounding. */
  const RateSumTolerance: real := 1.0001

  datatype Config = Config(
    nControl: int,
    nTest: int,
    baselineRate: real,
    expectedUplift: real,
    alpha: real,
    randomSeed: Option<int>,
    alternative: string)

  /** The outcome of the constructor, and whether it logged the warning that
      baseline + uplift leaves [0, 1.0001]. */
  datatype Construction = Construction(config: Result<Config>, rateSumWarning: bool)

  predicate BaselineValid(baselineRate: real)
  {
    0.0 <= baselineRate <= 1.0
  }

  predicate SizesValid(nControl: int, nTest: int)
  {
    nControl > 0 && nTest > 0
  }

  predicate AlphaValid(alpha: real)
  {
    0.0 < alpha < 1.0
  }

  predicate AlternativeValid(alternative: string)
  {
    alternative in Alternatives
  }

  predicate RateSumInRange(baselineRate: real, expectedUplift: real)
  {
    0.0 <= baselineRate + expectedUplift <= RateSumTolerance
  }

  /** All four constraints the constructor enforces. */
  predicate Valid(c: Config)
  {
    BaselineValid(c.baselineRate) && SizesValid(c.nControl, c.nTest)
    && AlphaValid(c.alpha) && AlternativeValid(c.alternative)
  }

  /** `ABTestConfig.__init__`. */
  function NewConfig(nControl: int, nTest: int, baselineRate: real, expectedUplift: real,
                     alpha: real, randomSeed: Option<int>, alternative: string): (c: Construction)
    // success exactly when every constraint holds, and then nothing is coerced
    ensures c.config.Ok? <==> Valid(Config(nControl, nTest, baselineRate, expectedUplift, alpha, randomSeed, alternative))
    ensures c.config.Ok? ==>
      c.config.value == Config(nControl, nTest, baselineRate, expectedUplift, alpha, randomSeed, alternative)
    // with several invalid fields, the earliest check in the order baseline, sizes, alpha, alternative decides
    ensures !BaselineValid(baselineRate) ==> c.config == Err(BaselineOutOfRange)
    ensures BaselineValid(baselineRate) && !SizesValid(nControl, nTest) ==> c.config == Err(NonPositiveSize)
    ensures BaselineValid(baselineRate) && SizesValid(nControl, nTest) && !AlphaValid(alpha) ==>
      c.config == Err(AlphaOutOfRange)
    ensures (BaselineValid(baselineRate) && SizesValid(nControl, nTest) && AlphaValid(alpha)
             && !AlternativeValid(alternative)) ==> c.config == Err(UnknownAlternative)
    // the rate-sum warning is logged only after the baseline check has passed
    ensures c.rateSumWarning <==> BaselineValid(baselineRate) && !RateSumInRange(baselineRate, expectedUplift)
  {
    if !BaselineValid(baselineRate) then Construction(Err(BaselineOutOfRange), false)
    else
      var warned := !RateSumInRange(baselineRate, expectedUplift);
      if !SizesValid(nControl, nTest) then Construction(Err(NonPositiveSize), warned)
      else if !AlphaValid(alpha) then Construction(Err(AlphaOutOfRange), warned)
      else if !AlternativeValid(alternative) then Construction(Err(UnknownAlternative), warned)
      else Construction(Ok(Config(nControl, nTest, baselineRate, expectedUplift, alpha, randomSeed, alternative)), warned)
  }

  /** The constructor's default arguments: 1000 users per arm, a 10% baseline,
      no uplift, alpha 0.05, seed 42 and a two-sided test. */
  const DefaultConfig: Config := Config(1000, 1000, 0.10, 0.00, 0.05, Some(42), TwoSided)

  /** `ABTestConfig()` with every argument defaulted succeeds without a
      warning and stores the defaults. */
  lemma DefaultsConstruct()
    ensures NewConfig(DefaultConfig.nControl, DefaultConfig.nTest, DefaultConfig.baselineRate,
                      DefaultConfig.expectedUplift, DefaultConfig.alpha, DefaultConfig.randomSeed,
                      DefaultConfig.alternative)
         == Construction(Ok(DefaultConfig), false)
  {
  }

  /** The uplift only feeds the warning: two constructions that differ only in
      the uplift succeed or fail together, with the same error. */
  lemma UpliftOnlyWarns(nControl: int, nTest: int, baselineRate: real, upliftA: real, upliftB: real,
                        alpha: real, randomSeed: Option<int>, alternative: string)
    ensures NewConfig(nControl, nTest, baselineRate, upliftA, alpha, randomSeed, alternative).config.Ok?
        == NewConfig(nControl, nTest, baselineRate, upliftB, alpha, randomSeed, alternative).config.Ok?
    ensures NewConfig(nControl, nTest, baselineRate, upliftA, alpha, randomSeed, alternative).config.Err? ==>
      NewConfig(nControl, nTest, baselineRate, upliftA, alpha, randomSeed, alternative).config
        == NewConfig(nControl, nTest, baselineRate, upliftB, alpha, randomSeed, alternative).config
  {
  }
}
