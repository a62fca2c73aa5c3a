/** The fidelity (data subset size) side of FABOLAS: the fixed fidelity schedule
    of the initial design, and the log-scale transform between raw fidelities and
    the [0, 1] coordinate that the surrogate models and the maximizer work on. */
module Fidelity {

  /** Divisors of s_max that the initial design cycles through, round by round. */
  const Subsets: seq<int> := [256, 128, 64, 32]

  function Abs(a: int): nat { if a < 0 then -a else a }

  /** The raw fidelity of initial round i: int(s_max / float(subsets[i % 4])).
      Python's int() truncates toward zero, so the result is the integer part of
      the quotient, with the sign of s_max. */
  function InitialFidelity(sMax: int, i: nat): (s: int)
    ensures Abs(s) * Subsets[i % |Subsets|] <= Abs(sMax) < (Abs(s) + 1) * Subsets[i % |Subsets|]
    ensures s > 0 ==> sMax > 0
    ensures s < 0 ==> sMax < 0
  {
    var d := Subsets[i % |Subsets|];
    var q := Abs(sMax) / d;
    assert q * d <= Abs(sMax) < (q + 1) * d;
    if sMax < 0 then -q else q
  }

  /** The schedule has period four. */
  lemma InitialFidelityPeriodic(sMax: int, i: nat)
    ensures InitialFidelity(sMax, i + |Subsets|) == InitialFidelity(sMax, i)
  {
  }

  /** Within one period the divisor halves from round to round, so for a
      non-negative s_max the fidelity at least doubles (and at most doubles
      plus one, the remainder bit). */
  lemma InitialScheduleDoubles(sMax: int, i: nat)
    requires sMax >= 0
    requires i % |Subsets| < |Subsets| - 1
    ensures 2 * InitialFidelity(sMax, i) <= InitialFidelity(sMax, i + 1) <= 2 * InitialFidelity(sMax, i) + 1
  {
  }

  /** From s_max = 128 on, the second round of a period already gets a positive
      fidelity, so within a period the schedule strictly rises. */
  lemma InitialScheduleRises(sMax: int, i: nat)
    requires sMax >= 128
    requires i % |Subsets| < |Subsets| - 1
    ensures InitialFidelity(sMax, i) < InitialFidelity(sMax, i + 1)
  {
  }

  /** Below 128 the two first rounds of each period both ask for fidelity 0. */
  lemma InitialScheduleFlatBelow128(sMax: int, i: nat)
    requires 0 <= sMax < 128
    requires i % |Subsets| == 0
    ensures InitialFidelity(sMax, i) == InitialFidelity(sMax, i + 1) == 0
  {
  }

  /** transform(s, s_min, s_max) and retransform(s_t, s_min, s_max): the log-scale
      normalisation of a raw fidelity and its inverse rounded to the nearest
      integer. Their bodies (floating-point log, exp and rint) are not part of
      this model: the optimizer loop is verified for every pair of functions. */
  datatype FidelityTransform = FidelityTransform(
    transform: (int, int, int) -> real,
    retransform: (real, int, int) -> int)
}
