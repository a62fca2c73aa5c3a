/** The round bookkeeping of fabolas(): precondition checks, the initial design,
    the model-guided rounds and the final incumbent. The surrogate models, the
    acquisition function, its maximizer, the incumbent projection, the random
    initial sampler and the objective itself are collaborators whose answers are
    given as functions of the round number (and of what the loop passes them);
    the loop is verified for every choice of them. */
module FabolasLoop {
  import opened Argmin
  import opened Fidelity

  datatype Result<T, E> = Ok(value: T) | Err(error: E)

  /** Why a run stops without a result. */
  datatype Failure =
    | InitExceedsIterations  // the assertion n_init <= num_iterations
    | DimensionMismatch      // the assertion that lower and upper have the same length
    | ZeroDimensions         // len(kernel) on the integer kernel of a box with no dimension
    | EmptyDesign            // X[:, :-1] on the empty one-dimensional array left by n_init <= 0
    | TransformArity         // transform(s) called with one argument (as written only)

  /** What the objective function returns: the value to minimise and its cost. */
  datatype Eval = Eval(value: real, cost: real)

  /** The arguments of one call of the objective function. The fidelity is an
      integer in both phases: a Python int in initial rounds, rint's
      integer-valued float in guided rounds. */
  datatype Query = Query(x: seq<real>, s: int)

  datatype Surrogate = ObjectiveModel | CostModel

  /** The do_optimize argument of a training call; the final training omits it. */
  datatype OptimizeFlag = Explicit(on: bool) | LibraryDefault

  /** One call of a surrogate model's train(inputs, targets, do_optimize). */
  datatype Training = Training(model: Surrogate, inputs: seq<seq<real>>, targets: seq<real>, optimize: OptimizeFlag)

  /** The answers of the collaborators, by round number. The round number stands
      for what the source passes besides the loop's own data: the bounds and rng of
      the sampler, and the trained model object of the projection.
      draw(i)              init_random_uniform(lower, upper, 1, rng)[0] in initial round i;
      objective(i, x, s)   objective_function(x, s) in round i;
      project(i, xs, p)    projected_incumbent_estimation(model_objective, xs, proj_value=p)
                           with the objective model as trained in round i (i = num_iterations
                           for the final estimate);
      propose(i)           maximizer.maximize() after the acquisition update of round i. */
  datatype Collaborators = Collaborators(
    draw: nat -> seq<real>,
    objective: (nat, seq<real>, int) -> Eval,
    project: (nat, seq<seq<real>>, real) -> seq<real>,
    propose: nat -> seq<real>)

  /** The shapes the collaborators promise for a D-dimensional box: configurations
      of D entries, and points of the augmented space of D + 1 entries. */
  ghost predicate Conforming(o: Collaborators, dims: nat) {
    && (forall i :: |o.draw(i)| == dims)
    && (forall i :: |o.propose(i)| == dims + 1)
    && (forall i, xs, p :: |o.project(i, xs, p)| == dims + 1)
  }

  /** The local state of fabolas(): the observation store X, y, c, the incumbent
      trajectory, and the calls made so far to the objective (in order), to the
      surrogates' train (in order) and to the maximizer (counted). */
  datatype Bookkeeping = Bookkeeping(
    X: seq<seq<real>>,
    y: seq<real>,
    c: seq<real>,
    incumbents: seq<seq<real>>,
    evaluations: seq<Query>,
    trainings: seq<Training>,
    maximizations: nat)

  /** What fabolas() returns, apart from the timing series. */
  datatype RunResult = RunResult(xOpt: seq<real>, trajectory: seq<seq<real>>)

  const Empty := Bookkeeping([], [], [], [], [], [], 0)

  /** v[-1] */
  function Last(v: seq<real>): real
    requires |v| > 0
  {
    v[|v| - 1]
  }

  /** v[:-1]: every coordinate but the last; appending the last one back gives v. */
  function DropLast(v: seq<real>): (r: seq<real>)
    ensures |r| == if |v| == 0 then 0 else |v| - 1
    ensures |v| > 0 ==> r + [Last(v)] == v
  {
    if |v| == 0 then [] else v[..|v| - 1]
  }

  /** X[:, :-1]: every stored point without its fidelity coordinate. */
  function Configs(xs: seq<seq<real>>): (r: seq<seq<real>>)
    ensures |r| == |xs|
    ensures forall k :: 0 <= k < |xs| && |xs[k]| > 0 ==> r[k] + [Last(xs[k])] == xs[k]
  {
    seq(|xs|, k requires 0 <= k < |xs| => DropLast(xs[k]))
  }

  /** Storing one more point adds exactly its configuration to X[:, :-1]: what a
      guided round projects extends what the previous one projected. */
  lemma ConfigsSnoc(xs: seq<seq<real>>, x: seq<real>)
    ensures Configs(xs + [x]) == Configs(xs) + [DropLast(x)]
  {
  }

  /** X, y, c, the trajectory and the objective calls all have n entries. */
  predicate Aligned(b: Bookkeeping, n: nat) {
    |b.X| == n && |b.y| == n && |b.c| == n && |b.incumbents| == n && |b.evaluations| == n
  }

  /** b2 only appends to b1. */
  predicate Extends(b2: Bookkeeping, b1: Bookkeeping) {
    && b1.X <= b2.X && b1.y <= b2.y && b1.c <= b2.c
    && b1.incumbents <= b2.incumbents && b1.evaluations <= b2.evaluations
    && b1.trainings <= b2.trainings && b1.maximizations <= b2.maximizations
  }

  /** Initial round k as recorded in b: the objective is called with a random
      configuration at the scheduled fidelity, the point is stored with the
      transformed fidelity appended, and the incumbent is the stored point with
      the lowest value so far (first one on ties) with s_max appended. */
  predicate InitialRound(b: Bookkeeping, k: nat, sMin: int, sMax: int, fm: FidelityTransform, o: Collaborators)
    requires Aligned(b, |b.X|) && k < |b.X|
  {
    var s := InitialFidelity(sMax, k);
    && b.evaluations[k] == Query(o.draw(k), s)
    && b.X[k] == o.draw(k) + [fm.transform(s, sMin, sMax)]
    && b.y[k] == o.objective(k, o.draw(k), s).value
    && b.c[k] == o.objective(k, o.draw(k), s).cost
    && b.incumbents[k] == b.X[ArgMin(b.y[..k + 1])] + [sMax as real]
  }

  /** Guided round k (the (k - nInit)-th) as recorded in b: both surrogates are
      trained on everything stored before it, the incumbent is the projection of
      the stored configurations onto proj_value = s_max, the maximizer's proposal
      is stored unchanged and the objective sees its configuration part and its
      fidelity coordinate mapped back by retransform. */
  predicate GuidedRound(b: Bookkeeping, k: nat, nInit: nat, sMin: int, sMax: int, fm: FidelityTransform, o: Collaborators)
    requires Aligned(b, |b.X|) && nInit <= k < |b.X| && 2 * (k - nInit) + 1 < |b.trainings|
  {
    var p := o.propose(k);
    && |p| > 0
    && b.trainings[2 * (k - nInit)] == Training(ObjectiveModel, b.X[..k], b.y[..k], Explicit(true))
    && b.trainings[2 * (k - nInit) + 1] == Training(CostModel, b.X[..k], b.c[..k], Explicit(true))
    && b.incumbents[k] == o.project(k, Configs(b.X[..k]), sMax as real)
    && b.X[k] == p
    && b.evaluations[k] == Query(DropLast(p), fm.retransform(Last(p), sMin, sMax))
    && b.y[k] == o.objective(k, DropLast(p), fm.retransform(Last(p), sMin, sMax)).value
    && b.c[k] == o.objective(k, DropLast(p), fm.retransform(Last(p), sMin, sMax)).cost
  }

  lemma InitialRoundStable(b1: Bookkeeping, b2: Bookkeeping, k: nat, sMin: int, sMax: int,
                           fm: FidelityTransform, o: Collaborators)
    requires Aligned(b1, |b1.X|) && Aligned(b2, |b2.X|) && Extends(b2, b1) && k < |b1.X|
    requires InitialRound(b1, k, sMin, sMax, fm, o)
    ensures InitialRound(b2, k, sMin, sMax, fm, o)
  {
  }

  lemma GuidedRoundStable(b1: Bookkeeping, b2: Bookkeeping, k: nat, nInit: nat, sMin: int, sMax: int,
                          fm: FidelityTransform, o: Collaborators)
    requires Aligned(b1, |b1.X|) && Aligned(b2, |b2.X|) && Extends(b2, b1)
    requires nInit <= k < |b1.X| && 2 * (k - nInit) + 1 < |b1.trainings|
    requires GuidedRound(b1, k, nInit, sMin, sMax, fm, o)
    ensures GuidedRound(b2, k, nInit, sMin, sMax, fm, o)
  {
  }

  /** The initial design loop (lines 175-196), with transform called with the
      three arguments its definition takes. */
  method InitialDesign(nInit: nat, sMin: int, sMax: int, fm: FidelityTransform, o: Collaborators)
    returns (b: Bookkeeping)
    ensures Aligned(b, nInit) && b.trainings == [] && b.maximizations == 0
    ensures forall k :: 0 <= k < nInit ==> InitialRound(b, k, sMin, sMax, fm, o)
  {
    b := Empty;
    var i := 0;
    while i < nInit
      invariant 0 <= i <= nInit
      invariant Aligned(b, i) && b.trainings == [] && b.maximizations == 0
      invariant forall k :: 0 <= k < i ==> InitialRound(b, k, sMin, sMax, fm, o)
    {
      var s := InitialFidelity(sMax, i);
      var x := o.draw(i);
      var e := o.objective(i, x, s);
      // Line 185 reads transform(s), but transform takes (s, s_min, s_max).
      var sTransformed := fm.transform(s, sMin, sMax);
      var y := b.y + [e.value];
      var X := b.X + [x + [sTransformed]];
      var best := ArgMin(y);
      var b' := Bookkeeping(X, y, b.c + [e.cost], b.incumbents + [X[best] + [sMax as real]],
                            b.evaluations + [Query(x, s)], [], 0);
      assert Aligned(b', i + 1) && Extends(b', b);
      forall k | 0 <= k < i
        ensures InitialRound(b', k, sMin, sMax, fm, o)
      {
        InitialRoundStable(b, b', k, sMin, sMax, fm, o);
      }
      assert b'.y[..i + 1] == y;
      assert InitialRound(b', i, sMin, sMax, fm, o);
      b := b';
      i := i + 1;
    }
  }

  /** The model-guided loop (lines 202-240). It fails on its first round when the
      initial design left X empty, after both trainings on the empty store
      (assuming, like the rest of the model, that train itself does not raise). */
  method GuidedSearch(b0: Bookkeeping, nInit: nat, numIterations: nat, sMin: int, sMax: int,
                      fm: FidelityTransform, o: Collaborators)
    returns (b: Bookkeeping, ok: bool)
    requires nInit <= numIterations && Aligned(b0, nInit) && b0.trainings == [] && b0.maximizations == 0
    requires forall i :: |o.propose(i)| > 0
    ensures Extends(b, b0)
    ensures ok <==> nInit > 0 || nInit == numIterations
    ensures ok ==> Aligned(b, numIterations)
    ensures ok ==> |b.trainings| == 2 * (numIterations - nInit) && b.maximizations == numIterations - nInit
    ensures ok ==> forall k :: nInit <= k < numIterations ==> GuidedRound(b, k, nInit, sMin, sMax, fm, o)
    ensures !ok ==> b == b0.(trainings := [Training(ObjectiveModel, [], [], Explicit(true)),
                                           Training(CostModel, [], [], Explicit(true))])
  {
    b := b0;
    var it := nInit;
    while it < numIterations
      invariant nInit <= it <= numIterations
      invariant Aligned(b, it) && Extends(b, b0)
      invariant |b.trainings| == 2 * (it - nInit) && b.maximizations == it - nInit
      invariant forall k :: nInit <= k < it ==> GuidedRound(b, k, nInit, sMin, sMax, fm, o)
      invariant it > nInit ==> nInit > 0
    {
      var trainings := b.trainings + [Training(ObjectiveModel, b.X, b.y, Explicit(true)),
                                      Training(CostModel, b.X, b.c, Explicit(true))];
      if |b.X| == 0 {
        return b.(trainings := trainings), false;
      }
      var incumbent := o.project(it, Configs(b.X), sMax as real);
      var newX := o.propose(it);
      var s := fm.retransform(Last(newX), sMin, sMax);
      var e := o.objective(it, DropLast(newX), s);
      var b' := Bookkeeping(b.X + [newX], b.y + [e.value], b.c + [e.cost],
                            b.incumbents + [incumbent], b.evaluations + [Query(DropLast(newX), s)],
                            trainings, b.maximizations + 1);
      forall k | nInit <= k < it
        ensures GuidedRound(b', k, nInit, sMin, sMax, fm, o)
      {
        GuidedRoundStable(b, b', k, nInit, sMin, sMax, fm, o);
      }
      assert b'.X[..it] == b.X && b'.y[..it] == b.y && b'.c[..it] == b.c;
      b := b';
      it := it + 1;
    }
    ok := true;
  }

  /** The final estimate (lines 243-251): one more training of the objective model,
      a projection onto proj_value = 1 whose last coordinate is then overwritten
      with s_max; x_opt is that incumbent without its last coordinate. */
  method Finalize(b0: Bookkeeping, numIterations: nat, sMax: int, o: Collaborators)
    returns (r: Result<RunResult, Failure>, b: Bookkeeping)
    requires Aligned(b0, |b0.X|)
    requires forall i, xs, p :: |o.project(i, xs, p)| > 0
    ensures b == b0.(trainings := b0.trainings + [Training(ObjectiveModel, b0.X, b0.y, LibraryDefault)])
    ensures r.Err? <==> |b0.X| == 0
    ensures r.Err? ==> r.error == EmptyDesign
    ensures r.Ok? ==> var inc := o.project(numIterations, Configs(b0.X), 1.0);
              && r.value.trajectory == b0.incumbents + [DropLast(inc) + [sMax as real]]
              && r.value.xOpt == DropLast(inc)
  {
    b := b0.(trainings := b0.trainings + [Training(ObjectiveModel, b0.X, b0.y, LibraryDefault)]);
    if |b.X| == 0 {
      return Err(EmptyDesign), b;
    }
    var incumbent := o.project(numIterations, Configs(b.X), 1.0);
    incumbent := incumbent[|incumbent| - 1 := sMax as real];
    assert incumbent == DropLast(o.project(numIterations, Configs(b.X), 1.0)) + [sMax as real];
    r := Ok(RunResult(DropLast(incumbent), b.incumbents + [incumbent]));
  }

  /** fabolas(objective_function, lower, upper, s_min, s_max, n_init, num_iterations)
      with transform called as intended; b is its bookkeeping when it returns or fails. */
  method Fabolas(lower: seq<real>, upper: seq<real>, sMin: int, sMax: int, nInit: int, numIterations: int,
                 fm: FidelityTransform, o: Collaborators)
    returns (r: Result<RunResult, Failure>, b: Bookkeeping)
    requires Conforming(o, |lower|)
    // failures, in the order the source detects them
    ensures nInit > numIterations ==> r == Err(InitExceedsIterations) && b == Empty
    ensures nInit <= numIterations && |lower| != |upper| ==> r == Err(DimensionMismatch) && b == Empty
    ensures nInit <= numIterations && |lower| == |upper| == 0 ==> r == Err(ZeroDimensions) && b == Empty
    ensures nInit <= numIterations && |lower| == |upper| > 0 && nInit <= 0 ==>
              && r == Err(EmptyDesign) && b.evaluations == [] && b.maximizations == 0
              && b.trainings == (if numIterations == nInit then [Training(ObjectiveModel, [], [], LibraryDefault)]
                                 else [Training(ObjectiveModel, [], [], Explicit(true)),
                                       Training(CostModel, [], [], Explicit(true))])
    ensures r.Ok? <==> nInit <= numIterations && |lower| == |upper| > 0 && nInit > 0
    // the observation store and the collaborator calls of a completed run
    ensures r.Ok? ==> Aligned(b, numIterations)
    ensures r.Ok? ==> forall k :: 0 <= k < nInit ==> InitialRound(b, k, sMin, sMax, fm, o)
    ensures r.Ok? ==> |b.trainings| == 2 * (numIterations - nInit) + 1
    ensures r.Ok? ==> forall k :: nInit <= k < numIterations ==> GuidedRound(b, k, nInit, sMin, sMax, fm, o)
    ensures r.Ok? ==> b.trainings[|b.trainings| - 1] == Training(ObjectiveModel, b.X, b.y, LibraryDefault)
    ensures r.Ok? ==> b.maximizations == numIterations - nInit
    // the result
    ensures r.Ok? ==> var inc := o.project(numIterations, Configs(b.X), 1.0);
              && r.value.trajectory == b.incumbents + [DropLast(inc) + [sMax as real]]
              && r.value.xOpt == DropLast(inc)
    ensures r.Ok? ==> |r.value.trajectory| == numIterations + 1
    ensures r.Ok? ==> forall k :: 0 <= k < nInit ==>
              |r.value.trajectory[k]| == |lower| + 2 && Last(r.value.trajectory[k]) == sMax as real
    ensures r.Ok? ==> forall k :: nInit <= k < numIterations ==> |r.value.trajectory[k]| == |lower| + 1
    ensures r.Ok? ==> |r.value.trajectory[numIterations]| == |lower| + 1
    ensures r.Ok? ==> Last(r.value.trajectory[numIterations]) == sMax as real
    ensures r.Ok? ==> DropLast(r.value.trajectory[numIterations]) == r.value.xOpt
    ensures r.Ok? && nInit == numIterations ==>
              b.trainings == [Training(ObjectiveModel, b.X, b.y, LibraryDefault)] && b.maximizations == 0
  {
    if nInit > numIterations {
      return Err(InitExceedsIterations), Empty;
    }
    if |lower| != |upper| {
      return Err(DimensionMismatch), Empty;
    }
    if |lower| == 0 {
      // With no dimension the kernel stays the integer cov_amp, and len(kernel) raises.
      return Err(ZeroDimensions), Empty;
    }
    // range(n_init) runs max(n_init, 0) rounds and range(n_init, num_iterations) the
    // rest. For n_init <= 0 the store stays empty and the first use of X[:, :-1]
    // fails before any round number is used, so the guided rounds are counted from 0.
    var first: nat := if nInit > 0 then nInit else 0;
    var last: nat := first + (numIterations - nInit);
    var b1 := InitialDesign(first, sMin, sMax, fm, o);
    var b2, ok := GuidedSearch(b1, first, last, sMin, sMax, fm, o);
    if !ok {
      return Err(EmptyDesign), b2;
    }
    r, b := Finalize(b2, last, sMax, o);
    if r.Err? {
      return;
    }
    forall k | 0 <= k < nInit
      ensures InitialRound(b, k, sMin, sMax, fm, o)
    {
      InitialRoundStable(b1, b, k, sMin, sMax, fm, o);
    }
    forall k | nInit <= k < numIterations
      ensures GuidedRound(b, k, nInit, sMin, sMax, fm, o)
    {
      GuidedRoundStable(b2, b, k, nInit, sMin, sMax, fm, o);
    }
    forall k | 0 <= k < nInit
      ensures |b.incumbents[k]| == |lower| + 2 && Last(b.incumbents[k]) == sMax as real
    {
      var m := ArgMin(b.y[..k + 1]);
      assert InitialRound(b, k, sMin, sMax, fm, o) && InitialRound(b, m, sMin, sMax, fm, o);
      assert |o.draw(m)| == |lower|;
    }
    forall k | nInit <= k < numIterations
      ensures |b.incumbents[k]| == |lower| + 1
    {
      assert GuidedRound(b, k, nInit, sMin, sMax, fm, o);
    }
  }

  /** fabolas() as written: line 185 calls transform(s) with one argument where
      the definition takes three, so the first initial round raises after its
      objective call, before anything is stored. When no initial round runs that
      line is never reached and the run fails anyway, on the empty design. */
  method FabolasAsWritten(lower: seq<real>, upper: seq<real>, sMin: int, sMax: int, nInit: int, numIterations: int,
                          fm: FidelityTransform, o: Collaborators)
    returns (r: Result<RunResult, Failure>, b: Bookkeeping)
    requires Conforming(o, |lower|)
    ensures r.Err?
    ensures nInit > numIterations ==> r == Err(InitExceedsIterations) && b == Empty
    ensures nInit <= numIterations && |lower| != |upper| ==> r == Err(DimensionMismatch) && b == Empty
    ensures nInit <= numIterations && |lower| == |upper| > 0 && nInit > 0 ==>
              && r == Err(TransformArity)
              && b == Empty.(evaluations := [Query(o.draw(0), InitialFidelity(sMax, 0))])
    ensures nInit <= numIterations && |lower| == |upper| == 0 ==> r == Err(ZeroDimensions) && b == Empty
  {
    if nInit > numIterations {
      return Err(InitExceedsIterations), Empty;
    }
    if |lower| != |upper| {
      return Err(DimensionMismatch), Empty;
    }
    if |lower| == 0 {
      return Err(ZeroDimensions), Empty;
    }
    if nInit <= 0 {
      r, b := Fabolas(lower, upper, sMin, sMax, nInit, numIterations, fm, o);
      return;
    }
    var s := InitialFidelity(sMax, 0);
    var x := o.draw(0);
    var e := o.objective(0, x, s);
    return Err(TransformArity), Empty.(evaluations := [Query(x, s)]);
  }
}

/** A run with a two-dimensional box, s_min = 1, s_max = 256 and two rounds, both
    of them initial: what its contract lets a caller conclude for every choice of
    collaborators. */
module FabolasScenario {
  import opened Fidelity
  import opened FabolasLoop

  method TwoInitialRounds(fm: FidelityTransform, o: Collaborators)
    returns (r: Result<RunResult, Failure>, b: Bookkeeping)
    requires Conforming(o, 2)
    ensures r.Ok? && |b.X| == 2 && |b.y| == 2 && |b.c| == 2
    ensures b.evaluations == [Query(o.draw(0), 1), Query(o.draw(1), 2)]
    ensures |r.value.trajectory| == 3
    ensures r.value.trajectory[0] == b.X[0] + [256.0]
    ensures r.value.trajectory[1] == b.X[if b.y[1] < b.y[0] then 1 else 0] + [256.0]
    ensures |r.value.trajectory[2]| == 3 && Last(r.value.trajectory[2]) == 256.0
    ensures b.trainings == [Training(ObjectiveModel, b.X, b.y, LibraryDefault)] && b.maximizations == 0
  {
    r, b := Fabolas([0.0, 0.0], [1.0, 1.0], 1, 256, 2, 2, fm, o);
    assert InitialRound(b, 0, 1, 256, fm, o) && InitialRound(b, 1, 1, 256, fm, o);
    assert b.y[..1] == [b.y[0]] && b.y[..2] == [b.y[0], b.y[1]];
  }
}
