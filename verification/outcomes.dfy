/** Failure-carrying values shared by every part of the A/B-test core.

    config.py, data_generator.py, tester.py and reporter.py raise exceptions
    (ValueError, and KeyError or TypeError when reporter.py reads a malformed
    result mapping); here each exception kind is an `Error` value carried by
    `Result`. `Option` stands for a value that tester.py reports as NaN: the
    mean of an empty column, the interval of an empty sample.
 */
module Outcomes {

  datatype Option<+T> = None | Some(value: T)

  datatype Error =
    // configuration, in the order the constructor checks them
    | BaselineOutOfRange
    | NonPositiveSize
    | AlphaOutOfRange
    | UnknownAlternative  // also scipy's refusal in the t-test
    // schema of the `converted` column
    | MissingConvertedColumn
    | NonNumericConverted
    // numpy's seeding rejects a seed outside [0, 2^32 - 1]
    | InvalidSeed
    // the Bernoulli sampler's own domain check (probability outside [0, 1], negative size)
    | InvalidDrawParameters
    // analysis
    | EmptyDataset
    // reporting
    | EmptyResults
    | MissingKey(key: string)
    | NotANumber(key: string)

  datatype Result<+T> = Ok(value: T) | Err(error: Error) {

    predicate IsFailure() {
      Err?
    }

    function PropagateFailure<U>(): Result<U>
      requires Err?
    {
      Err(error)
    }

    function Extract(): T
      requires Ok?
    {
      value
    }
  }
}
