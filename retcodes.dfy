/** `Retcode` of `main.rs`: the two-valued reading of a minion's `retcode`. */
module Retcodes {
  import opened Json

  datatype Retcode = Success | Failure

  /** `Retcode::default()`. */
  function DefaultRetcode(): (r: Retcode)
    ensures IsFailure(r)
  {
    Failure
  }

  /** `From<u64> for Retcode`: zero is success, everything else failure. */
  function FromU64(input: u64): (r: Retcode)
    ensures r == Success <==> input == 0
  {
    match input
    case 0 => Success
    case _ => Failure
  }

  /** `Retcode::is_failure`. */
  predicate IsFailure(r: Retcode)
  {
    r == Failure
  }

  /** What the classifier relies on: a return code reads as a failure
      exactly when it is non-zero. */
  lemma {:induction false} IsFailureIffNonZero(input: u64)
    ensures IsFailure(FromU64(input)) <==> input != 0
  {
  }

  /** The two unit tests of the source: `0` converts to `Success`, and every
      value in `1..10` to `Failure`. */
  lemma {:induction false} ConversionTests()
    ensures FromU64(0) == Success
    ensures forall i: u64 :: 1 <= i < 10 ==> FromU64(i) == Failure
  {
  }
}
