/** numpy.argmin over a vector of observed objective values: the rule by which
    the initial design picks its incumbent. */
module Argmin {

  /** The first index of a minimal element of a non-empty vector. */
  function ArgMin(y: seq<real>): (k: nat)
    requires |y| > 0
    ensures k < |y|
    ensures forall j :: 0 <= j < |y| ==> y[k] <= y[j]
    ensures forall j :: 0 <= j < k ==> y[k] < y[j]
    decreases |y|
  {
    if |y| == 1 then 0
    else
      var k := ArgMin(y[..|y| - 1]);
      if y[|y| - 1] < y[k] then |y| - 1 else k
  }

  /** The two properties in ArgMin's contract single out its result: an index is
      ArgMin(y) exactly when it holds a minimum and no earlier index does. */
  lemma ArgMinCharacterized(y: seq<real>, k: nat)
    requires k < |y|
    ensures k == ArgMin(y) <==>
              (forall j :: 0 <= j < |y| ==> y[k] <= y[j]) &&
              (forall j :: 0 <= j < k ==> y[k] < y[j])
  {
  }

  /** Appending an observation moves the incumbent index to the new observation
      exactly when it is strictly better than the current minimum. */
  lemma ArgMinSnoc(y: seq<real>, v: real)
    requires |y| > 0
    ensures ArgMin(y + [v]) == if v < y[ArgMin(y)] then |y| else ArgMin(y)
  {
  }

  /** The minimum over a longer prefix is never worse than over a shorter one:
      the incumbent values of the initial design never increase. */
  lemma ArgMinPrefixMonotone(y: seq<real>, j: nat, k: nat)
    requires 0 < j <= k <= |y|
    ensures y[ArgMin(y[..k])] <= y[ArgMin(y[..j])]
  {
  }
}
