/** The A/B dataset (data_generator.py): either the caller's two tables,
    checked and adopted, or two synthetic arms drawn from a seeded sampler. */
module DataSets {
  import opened Outcomes
  import opened Samples
  import opened Frames
  import opened Configuration

  const UserId: string := "user_id"
  const Group: string := "group"
  const ControlLabel: string := "control"
  const TestLabel: string := "test"

  datatype Arm = ControlArm | TestArm

  /** The seeded random stream, left abstract: `draw(arm, p, i)` is the i-th
      Bernoulli(p) outcome drawn for `arm`. numpy draws both arms from one
      global stream, the test draws continuing after the control draws, so
      for one configuration the seed fixes the draws, while a test draw also
      depends on the control arm's size and rate. */
  type Sampler = (Arm, real, nat) -> bool

  /** The two arms' tables and the configuration they were produced under. */
  datatype DataSet = DataSet(config: Config, control: Table, test: Table)

  /** What every successfully built dataset satisfies: both tables carry a
      numeric `converted` column, and the configured sizes are the table sizes. */
  predicate WellFormed(ds: DataSet)
  {
    && HasNumericConverted(ds.control) && HasNumericConverted(ds.test)
    && ds.config.nControl == ds.control.rows && ds.config.nTest == ds.test.rows
  }

  /** `ABTestDataSet.__init__`: supplied tables are adopted only when both are
      given; otherwise the data are generated and a lone table is ignored. */
  function NewDataSet(config: Config, control: Option<Table>, test: Option<Table>, draw: Sampler): (r: Result<DataSet>)
    ensures r.Ok? ==> WellFormed(r.value)
    // both tables supplied: they are loaded; anything less: the data are generated
    ensures control.Some? && test.Some? ==> r == Load(config, control.value, test.value)
    ensures !(control.Some? && test.Some?) ==> r == Generate(config, draw)
    ensures control.Some? && test.Some? ==>
      r.Ok? ==> r.value.control == control.value && r.value.test == test.value
  {
    if control.Some? && test.Some? then Load(config, control.value, test.value)
    else Generate(config, draw)
  }

  /** A single supplied table never reaches the dataset. */
  lemma LoneTableIgnored(config: Config, table: Table, draw: Sampler)
    ensures NewDataSet(config, Some(table), None, draw) == NewDataSet(config, None, None, draw) == Generate(config, draw)
    ensures NewDataSet(config, None, Some(table), draw) == Generate(config, draw)
  {
  }

  /** `_load_existing_data`: both tables need a `converted` column (checked
      first, for both), then a numeric one; on success the tables are kept as
      given and the configured sizes are overwritten with the observed ones. */
  function Load(config: Config, control: Table, test: Table): (r: Result<DataSet>)
    ensures r.Ok? <==> HasNumericConverted(control) && HasNumericConverted(test)
    ensures Converted !in control.columns || Converted !in test.columns ==> r == Err(MissingConvertedColumn)
    ensures r.Err? ==> r.error == MissingConvertedColumn || r.error == NonNumericConverted
    ensures Converted in control.columns && Converted in test.columns && r.Err? ==> r.error == NonNumericConverted
    ensures r.Ok? ==> r.value.control == control && r.value.test == test
    ensures r.Ok? ==> r.value.config == config.(nControl := control.rows, nTest := test.rows)
  {
    if Converted !in control.columns || Converted !in test.columns then Err(MissingConvertedColumn)
    else if !control.columns[Converted].Numeric? || !test.columns[Converted].Numeric? then Err(NonNumericConverted)
    else Ok(DataSet(config.(nControl := control.rows, nTest := test.rows), control, test))
  }

  /** Only the dtype is checked: a numeric column of other values than 0 and 1 loads. */
  lemma NumericCheckAdmitsNonBinary(config: Config)
    ensures var t: Table := Frame(1, map[Converted := Numeric([2.0])]);
            Load(config, t, t).Ok? && !IsBinary(t.columns[Converted].numbers)
  {
    var t: Table := Frame(1, map[Converted := Numeric([2.0])]);
    assert t.columns[Converted].numbers[0] == 2.0;
  }

  /** The test arm's success probability: baseline + uplift, capped above at 1
      and not below. */
  function TestRate(config: Config): (p: real)
    ensures p <= 1.0
    ensures p <= config.baselineRate + config.expectedUplift
    ensures p == 1.0 || p == config.baselineRate + config.expectedUplift
  {
    var p := config.baselineRate + config.expectedUplift;
    if p < 1.0 then p else 1.0
  }

  /** One past the largest seed `np.random.seed` accepts. */
  const SeedLimit: int := 0x1_0000_0000

  /** No seed, or one numpy's legacy seeding accepts: 0 <= seed < 2^32. */
  predicate SeedValid(seed: Option<int>)
  {
    seed.Some? ==> 0 <= seed.value < SeedLimit
  }

  /** The sampler's own domain check: a probability in [0, 1] and a non-negative size. */
  predicate DrawParametersValid(p: real, n: int)
  {
    0.0 <= p <= 1.0 && n >= 0
  }

  /** Turns the first `n` draws for `arm` at probability `p` into 0/1 outcomes. */
  function Draws(draw: Sampler, arm: Arm, p: real, n: nat): (s: seq<real>)
    ensures |s| == n && IsBinary(s)
    ensures forall i :: 0 <= i < n ==> (s[i] == 1.0 <==> draw(arm, p, i))
  {
    seq(n, i requires 0 <= i < n => if draw(arm, p, i) then 1.0 else 0.0)
  }

  /** The ids `first`, `first + 1`, ..., `first + count - 1`. */
  function IdRange(first: nat, count: nat): (ids: seq<real>)
    ensures |ids| == count
    ensures forall i :: 0 <= i < count ==> ids[i] == (first + i) as real
  {
    seq(count, i requires 0 <= i < count => (first + i) as real)
  }

  /** One synthetic arm: user ids, a constant group label and the outcomes. */
  function ArmTable(ids: seq<real>, groupName: string, outcomes: seq<real>): (t: Table)
    requires |ids| == |outcomes|
    ensures t.rows == |outcomes|
    ensures t.columns.Keys == {UserId, Group, Converted}
    ensures t.columns[Converted] == Numeric(outcomes) && t.columns[UserId] == Numeric(ids)
    ensures t.columns[Group] == Textual(seq(|outcomes|, _ => groupName))
  {
    Frame(|outcomes|, map[UserId := Numeric(ids),
                         Group := Textual(seq(|outcomes|, _ => groupName)),
                         Converted := Numeric(outcomes)])
  }

  /** `generate_synthetic_data`: `nControl` control draws at the baseline rate,
      then `nTest` test draws at the capped rate; ids run on from the control
      ids. The sampler rejects a probability outside [0, 1] or a negative
      size, so a negative baseline + uplift, which the constructor only warns
      about, fails here; before any draw, seeding rejects a seed outside
      [0, 2^32 - 1], which the constructor does not check. */
  function Generate(config: Config, draw: Sampler): (r: Result<DataSet>)
    ensures r.Ok? <==> && SeedValid(config.randomSeed)
                       && DrawParametersValid(config.baselineRate, config.nControl)
                       && DrawParametersValid(TestRate(config), config.nTest)
    // seeding comes before any draw
    ensures !SeedValid(config.randomSeed) ==> r == Err(InvalidSeed)
    ensures SeedValid(config.randomSeed) && r.Err? ==> r.error == InvalidDrawParameters
    ensures r.Ok? ==> r.value.config == config
    ensures r.Ok? ==> r.value.control.columns.Keys == r.value.test.columns.Keys == {UserId, Group, Converted}
    ensures r.Ok? ==>
      && r.value.control.rows == config.nControl && r.value.test.rows == config.nTest
      && r.value.control.columns[Converted] == Numeric(Draws(draw, ControlArm, config.baselineRate, config.nControl))
      && r.value.test.columns[Converted] == Numeric(Draws(draw, TestArm, TestRate(config), config.nTest))
  {
    if !SeedValid(config.randomSeed) then Err(InvalidSeed)
    else if !DrawParametersValid(config.baselineRate, config.nControl) then Err(InvalidDrawParameters)
    else if !DrawParametersValid(TestRate(config), config.nTest) then Err(InvalidDrawParameters)
    else
      var nControl: nat := config.nControl;
      var nTest: nat := config.nTest;
      var control := ArmTable(IdRange(0, nControl), ControlLabel,
                              Draws(draw, ControlArm, config.baselineRate, nControl));
      var test := ArmTable(IdRange(nControl, nTest), TestLabel,
                           Draws(draw, TestArm, TestRate(config), nTest));
      Ok(DataSet(config, control, test))
  }

  /** A validated configuration generates, whatever the sampler, exactly when
      its seed is one numpy accepts and baseline + uplift is not negative: the
      constructor checks neither. */
  lemma ValidConfigGenerates(config: Config, draw: Sampler)
    requires Valid(config)
    ensures Generate(config, draw).Ok? <==>
      SeedValid(config.randomSeed) && config.baselineRate + config.expectedUplift >= 0.0
  {
  }

  /** The default configuration generates, whatever the sampler. */
  lemma DefaultConfigGenerates(draw: Sampler)
    ensures Generate(DefaultConfig, draw).Ok?
    ensures Generate(DefaultConfig, draw).value.control.rows == Generate(DefaultConfig, draw).value.test.rows == 1000
  {
  }

  /** Synthetic ids: control holds 0 .. nControl-1 and test holds
      nControl .. nControl+nTest-1, so every control id is below every test id. */
  lemma SyntheticIdsContiguousAndDisjoint(config: Config, draw: Sampler)
    requires Generate(config, draw).Ok?
    ensures var ds := Generate(config, draw).value;
            && ds.control.columns[UserId] == Numeric(IdRange(0, config.nControl))
            && ds.test.columns[UserId] == Numeric(IdRange(config.nControl, config.nTest))
            && forall i, j :: 0 <= i < config.nControl && 0 <= j < config.nTest ==>
                 ds.control.columns[UserId].numbers[i] < ds.test.columns[UserId].numbers[j]
  {
  }

  /** When baseline + uplift reaches 1, the cap makes every test draw a
      Bernoulli(1) draw; a sampler that is certain at probability 1 then
      converts every test user. */
  lemma CappedTestArmConvertsAll(config: Config, draw: Sampler)
    requires Generate(config, draw).Ok?
    requires config.baselineRate + config.expectedUplift >= 1.0
    requires forall i: nat :: draw(TestArm, 1.0, i)
    ensures var s := Generate(config, draw).value.test.columns[Converted].numbers;
            forall i :: 0 <= i < |s| ==> s[i] == 1.0
  {
    assert TestRate(config) == 1.0;
  }

  /** Column-wise `pd.concat` of two columns of the same dtype family. */
  predicate SameKind(a: Column, b: Column)
  {
    a.Numeric? == b.Numeric?
  }

  function Stack(a: Column, b: Column): (c: Column)
    requires SameKind(a, b)
    ensures SameKind(c, a) && c.Length() == a.Length() + b.Length()
    ensures c.Numeric? ==> c.numbers[..|a.numbers|] == a.numbers && c.numbers[|a.numbers|..] == b.numbers
    ensures c.Textual? ==> c.texts[..|a.texts|] == a.texts && c.texts[|a.texts|..] == b.texts
  {
    match a
    case Numeric(xs) => Numeric(xs + b.numbers)
    case Textual(ts) => Textual(ts + b.texts)
  }

  /** `get_combined_data`: the control rows followed by the test rows, for
      every column the two arms share with the same dtype family. */
  function Combined(ds: DataSet): (t: Table)
    ensures t.rows == ds.control.rows + ds.test.rows
    ensures forall name :: name in t.columns <==>
      name in ds.control.columns && name in ds.test.columns
      && SameKind(ds.control.columns[name], ds.test.columns[name])
    ensures forall name :: name in t.columns ==>
      t.columns[name] == Stack(ds.control.columns[name], ds.test.columns[name])
  {
    var c := ds.control;
    var s := ds.test;
    var columns := map name | name in c.columns.Keys * s.columns.Keys && SameKind(c.columns[name], s.columns[name])
                            :: Stack(c.columns[name], s.columns[name]);
    Frame(c.rows + s.rows, columns)
  }

  /** The combined synthetic data number their users 0 .. nControl+nTest-1 in order. */
  lemma CombinedSyntheticIds(config: Config, draw: Sampler)
    requires Generate(config, draw).Ok?
    ensures Combined(Generate(config, draw).value).columns[UserId]
         == Numeric(IdRange(0, config.nControl + config.nTest))
  {
    var ds := Generate(config, draw).value;
    var ids := Combined(ds).columns[UserId].numbers;
    assert ids == IdRange(0, config.nControl) + IdRange(config.nControl, config.nTest);
  }
}
