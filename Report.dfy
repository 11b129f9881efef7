// The run-size constants of the main routine and the percentages it derives
// from the final counters for its report.

module Report {

  /** Calls in a run: the 10000 calls of the data plus the warm-up calls. */
  const TotCalls: nat := 10700

  /** Warm-up calls, fixed whatever the FCA scheme. */
  const NumCallsWarmup: nat := 700

  /** The calls the percentages are taken over: those after the warm-up. */
  function CallsAfterWarmup(): (n: nat)
    ensures n == 10000
    ensures n + NumCallsWarmup == TotCalls
  {
    TotCalls - NumCallsWarmup
  }

  /**
   * A percentage as the main routine writes it: the count is divided by the
   * calls after warm-up in integer arithmetic, and only the quotient is
   * scaled by 100.
   */
  function PercentageAsWritten(count: nat): (p: nat)
    ensures p % 100 == 0
    ensures count < CallsAfterWarmup() ==> p == 0
  {
    (count / CallsAfterWarmup()) * 100
  }

  /** 250 blocked calls in 10000 are 2.5 percent, but the integer quotient reports 0. */
  lemma PercentageAsWrittenLosesFraction()
    ensures PercentageAsWritten(250) == 0
    ensures Percentage(250) == 2.5
  {
  }

  /** The share of the calls after warm-up that `count` makes up, in percent. */
  function Percentage(count: nat): (p: real)
    ensures p * (CallsAfterWarmup() as real) == 100.0 * (count as real)
  {
    100.0 * (count as real) / (CallsAfterWarmup() as real)
  }

  /** A count of at most the calls after warm-up is between 0 and 100 percent. */
  lemma PercentageBounds(count: nat)
    requires count <= CallsAfterWarmup()
    ensures 0.0 <= Percentage(count) <= 100.0
  {
  }

  /** More blocked or dropped calls never give a lower percentage. */
  lemma PercentageMonotone(a: nat, b: nat)
    requires a <= b
    ensures Percentage(a) <= Percentage(b)
  {
  }

  /** The routine reports the exact percentage rounded down to a multiple of 100. */
  lemma AsWrittenIsWholeHundreds(count: nat)
    ensures (PercentageAsWritten(count) as real) <= Percentage(count)
    ensures Percentage(count) < (PercentageAsWritten(count) as real) + 100.0
  {
  }
}
