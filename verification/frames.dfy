/** The tables an arm's data live in: a pandas DataFrame reduced to a row
    count and named, typed columns of that length. Only the column's dtype
    family matters to the core (numeric or not), so cells are reals or text. */
module Frames {
  import opened Outcomes

  /** The outcome column every table must carry. */
  const Converted: string := "converted"

  datatype Column = Numeric(numbers: seq<real>) | Textual(texts: seq<string>) {
    function Length(): nat
    {
      match this
      case Numeric(xs) => |xs|
      case Textual(ts) => |ts|
    }
  }

  datatype Frame = Frame(rows: nat, columns: map<string, Column>)

  /** Every column holds exactly one cell per row. */
  predicate Rectangular(f: Frame)
  {
    forall name :: name in f.columns ==> f.columns[name].Length() == f.rows
  }

  type Table = f: Frame | Rectangular(f) witness Frame(0, map[])

  /** `DataFrame.empty`: either axis has length zero. */
  predicate Empty(t: Table)
  {
    t.rows == 0 || |t.columns| == 0
  }

  /** The table carries a `converted` column of numeric dtype. */
  predicate HasNumericConverted(t: Table)
  {
    Converted in t.columns && t.columns[Converted].Numeric?
  }

  /** The values of the `converted` column, with the two ways reading it fails:
      the column is absent, or it is not numeric (pandas cannot average text). */
  function ConvertedValues(t: Table): (r: Result<seq<real>>)
    ensures r.Ok? <==> HasNumericConverted(t)
    ensures Converted !in t.columns ==> r == Err(MissingConvertedColumn)
    ensures Converted in t.columns && !HasNumericConverted(t) ==> r == Err(NonNumericConverted)
    ensures r.Ok? ==> |r.value| == t.rows
  {
    if Converted !in t.columns then Err(MissingConvertedColumn)
    else match t.columns[Converted]
      case Numeric(xs) => Ok(xs)
      case Textual(_) => Err(NonNumericConverted)
  }
}
