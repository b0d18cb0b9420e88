/** Outcome samples: the numeric `converted` values of one arm, and the
    arithmetic the analysis performs on them (sum, mean, count of ones). */
module Samples {

  /** Sum of the sample's values. */
  function Sum(s: seq<real>): real
  {
    if |s| == 0 then 0.0 else s[0] + Sum(s[1..])
  }

  /** Number of entries equal to 1, i.e. the converted users of a 0/1 sample. */
  function Ones(s: seq<real>): (k: nat)
    ensures k <= |s|
  {
    if |s| == 0 then 0 else (if s[0] == 1.0 then 1 else 0) + Ones(s[1..])
  }

  /** Every outcome is 0 or 1. */
  predicate IsBinary(s: seq<real>)
  {
    forall i :: 0 <= i < |s| ==> s[i] == 0.0 || s[i] == 1.0
  }

  /** Every value lies in [0, 1]: the range of a conversion outcome. */
  predicate InUnitRange(s: seq<real>)
  {
    forall i :: 0 <= i < |s| ==> 0.0 <= s[i] <= 1.0
  }

  /** A 0/1 sample lies in [0, 1]. */
  lemma BinaryIsInUnitRange(s: seq<real>)
    requires IsBinary(s)
    ensures InUnitRange(s)
  {
  }

  /** The arithmetic mean; pandas' `Series.mean` on a non-empty numeric column. */
  function Mean(s: seq<real>): real
    requires |s| > 0
  {
    Sum(s) / (|s| as real)
  }

  /** On a 0/1 sample the sum is the number of ones. */
  lemma {:induction false} BinarySumCountsOnes(s: seq<real>)
    requires IsBinary(s)
    ensures Sum(s) == Ones(s) as real
  {
    if |s| > 0 {
      assert IsBinary(s[1..]) by {
        forall i | 0 <= i < |s[1..]| ensures s[1..][i] == 0.0 || s[1..][i] == 1.0 {
          assert s[1..][i] == s[i + 1];
        }
      }
      BinarySumCountsOnes(s[1..]);
    }
  }

  /** The sum of values that all lie in [lo, hi] lies in [n*lo, n*hi]. */
  lemma {:induction false} SumWithinBounds(s: seq<real>, lo: real, hi: real)
    requires forall i :: 0 <= i < |s| ==> lo <= s[i] <= hi
    ensures (|s| as real) * lo <= Sum(s) <= (|s| as real) * hi
  {
    if |s| > 0 {
      assert forall i :: 0 <= i < |s[1..]| ==> lo <= s[1..][i] <= hi by {
        forall i | 0 <= i < |s[1..]| ensures lo <= s[1..][i] <= hi {
          assert s[1..][i] == s[i + 1];
        }
      }
      SumWithinBounds(s[1..], lo, hi);
      assert lo <= s[0] <= hi;
      var m := |s[1..]| as real;
      assert Sum(s) == s[0] + Sum(s[1..]);
      assert (|s| as real) * lo == m * lo + lo;
      assert (|s| as real) * hi == m * hi + hi;
    }
  }

  /** A mean never leaves the range of its values. */
  lemma MeanWithinBounds(s: seq<real>, lo: real, hi: real)
    requires |s| > 0
    requires forall i :: 0 <= i < |s| ==> lo <= s[i] <= hi
    ensures lo <= Mean(s) <= hi
  {
    SumWithinBounds(s, lo, hi);
    var n := |s| as real;
    assert n * lo <= Sum(s) <= n * hi;
    assert Mean(s) * n == Sum(s);
    assert (Mean(s) - lo) * n >= 0.0;
    assert (hi - Mean(s)) * n >= 0.0;
  }

  /** The mean of a non-empty 0/1 sample is the share of ones, a rate in [0, 1]. */
  lemma BinaryMeanIsShareOfOnes(s: seq<real>)
    requires |s| > 0 && IsBinary(s)
    ensures Mean(s) == (Ones(s) as real) / (|s| as real)
    ensures 0.0 <= Mean(s) <= 1.0
  {
    BinarySumCountsOnes(s);
    MeanWithinBounds(s, 0.0, 1.0);
  }

  /** A 0/1 sample has no ones exactly when every outcome is 0. */
  lemma {:induction false} NoOnesMeansAllZero(s: seq<real>)
    requires IsBinary(s)
    ensures Ones(s) == 0 <==> forall i :: 0 <= i < |s| ==> s[i] == 0.0
  {
    if |s| > 0 {
      assert IsBinary(s[1..]) by {
        forall i | 0 <= i < |s[1..]| ensures s[1..][i] == 0.0 || s[1..][i] == 1.0 {
          assert s[1..][i] == s[i + 1];
        }
      }
      NoOnesMeansAllZero(s[1..]);
      if Ones(s) == 0 {
        forall i | 0 <= i < |s| ensures s[i] == 0.0 {
          if i > 0 {
            assert s[i] == s[1..][i - 1];
          }
        }
      }
      if forall i :: 0 <= i < |s| ==> s[i] == 0.0 {
        assert forall i :: 0 <= i < |s[1..]| ==> s[1..][i] == 0.0 by {
          forall i | 0 <= i < |s[1..]| ensures s[1..][i] == 0.0 {
            assert s[1..][i] == s[i + 1];
          }
        }
      }
    }
  }

  /** A 0/1 sample is all ones exactly when its count of ones is its length. */
  lemma {:induction false} AllOnesMeansFullCount(s: seq<real>)
    requires IsBinary(s)
    ensures Ones(s) == |s| <==> forall i :: 0 <= i < |s| ==> s[i] == 1.0
  {
    if |s| > 0 {
      assert IsBinary(s[1..]) by {
        forall i | 0 <= i < |s[1..]| ensures s[1..][i] == 0.0 || s[1..][i] == 1.0 {
          assert s[1..][i] == s[i + 1];
        }
      }
      AllOnesMeansFullCount(s[1..]);
      if Ones(s) == |s| {
        forall i | 0 <= i < |s| ensures s[i] == 1.0 {
          if i > 0 {
            assert s[i] == s[1..][i - 1];
          }
        }
      }
      if forall i :: 0 <= i < |s| ==> s[i] == 1.0 {
        assert forall i :: 0 <= i < |s[1..]| ==> s[1..][i] == 1.0 by {
          forall i | 0 <= i < |s[1..]| ensures s[1..][i] == 1.0 {
            assert s[1..][i] == s[i + 1];
          }
        }
      }
    }
  }

  /** The rate of a non-empty 0/1 sample is 0 or 1 exactly when every user
      behaved alike: these are the degenerate Wald intervals. */
  lemma BinaryRateIsExtremeIffUniform(s: seq<real>)
    requires |s| > 0 && IsBinary(s)
    ensures Mean(s) == 0.0 <==> forall i :: 0 <= i < |s| ==> s[i] == 0.0
    ensures Mean(s) == 1.0 <==> forall i :: 0 <= i < |s| ==> s[i] == 1.0
  {
    BinaryMeanIsShareOfOnes(s);
    NoOnesMeansAllZero(s);
    AllOnesMeansFullCount(s);
    var n := |s| as real;
    assert Mean(s) * n == Ones(s) as real;
  }
}
