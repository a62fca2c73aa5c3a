# FABOLAS round bookkeeping in Dafny

A model of the control loop of `fabolas()` in RoBO: multi-fidelity Bayesian
optimisation in which the fidelity is the size of the data subset a
configuration is evaluated on. The model covers what the loop itself does:

- the two precondition checks;
- the initial design, whose fidelities follow a fixed schedule;
- the append-only observation store `X`, `y`, `c`;
- the incumbent chosen by raw argmin during the initial design;
- the model-guided rounds;
- the final incumbent, whose fidelity is forced to `s_max`.

The loop decides with help from collaborators: the two GP surrogates, the
information-gain acquisition, the DIRECT maximizer, the incumbent projection,
the uniform initial sampler and the objective function. Their answers enter as
the function-valued fields of `FabolasLoop.Collaborators`, indexed by round
number. Each also receives the loop data the source passes it: the objective
gets the configuration and the fidelity, the projection gets the stored
configurations and `proj_value`. The round number replaces everything else the
source passes: `lower`, `upper`, `1` and `rng` for the sampler, and the trained
model object for the projection. A fully retrained model is a function of the
round, and any stochasticity can depend on the round, so one function per
collaborator is as general as the source. `transform` and
`retransform` are the two function-valued fields of
`Fidelity.FidelityTransform`. Every result is proved for every choice of these
functions.

The source is one function with local lists, so the model has no class. The
phases are methods over values: `InitialDesign`, `GuidedSearch` and `Finalize`,
composed by `Fabolas`. Their shared state is the datatype `Bookkeeping`. It
holds `X`, `y`, `c` and the incumbent trajectory. It also logs the calls made
to collaborators: the objective's arguments, every surrogate `train` call with
its data and its `do_optimize` flag, and the number of maximizations. The
predicates `InitialRound` and `GuidedRound` say in closed form what round `k`
leaves in that state. The methods prove that every round of the run satisfies
them.

Behaviour of the code worth noting:

- The incumbents of the initial design are `X[best_idx]` with `s_max`
  appended (robo/fmin/fabolas.py:193). `X[best_idx]` already ends with the
  transformed fidelity, so these entries have D + 2 coordinates. The guided and
  final incumbents have D + 1. `Fabolas` states the length of every trajectory
  entry.
- `x_opt` comes from the final projection (robo/fmin/fabolas.py:244-251), not
  from the raw argmin of the observed values. So `TwoInitialRounds` fixes the
  trajectory layout, not `x_opt`.
- Guided rounds call the projection with `proj_value=s_max`, a raw fidelity
  (robo/fmin/fabolas.py:213-214). The final estimate uses `proj_value=1`, the
  transformed value (robo/fmin/fabolas.py:244-245). The model records both as
  written.
- With `n_init <= 0` the assertions pass, but no initial round runs and `X` is
  left as the empty one-dimensional `np.array([])`. `X[:, :-1]` then raises at
  line 213, or at line 244 when no guided round runs. This happens after the
  training calls on the empty store, assuming `train` accepts that array
  (exceptions inside collaborators are not modelled). `Fabolas` returns
  `Err(EmptyDesign)` here with that log.
- With a box of no dimensions the loop at lines 86-88 never runs, so `kernel`
  stays the integer `cov_amp`. `len(kernel)` at line 99 then raises before any
  collaborator call. `Fabolas` returns `Err(ZeroDimensions)`.
- The divisors `256, 128, 64, 32` decrease, so the initial fidelities never
  decrease within a period of four, and strictly increase when s_max >= 128.
  For 0 <= s_max < 128 the first two rounds of a period both get fidelity 0.
  Nothing clamps the schedule to `s_min`: for s_max < 256·s_min the first round
  of a period asks for a fidelity below s_min, and for s_max < 256 that
  fidelity is 0.

## Model

| member | source | states |
|---|---|---|
| `Fidelity.InitialFidelity` | robo/fmin/fabolas.py:173-178 | the fidelity of initial round i is the integer part of s_max / subsets[i % 4], truncated toward zero and with the sign of s_max |
| `Fidelity.InitialFidelityPeriodic` | robo/fmin/fabolas.py:173-178 | the initial fidelity schedule repeats with period 4 |
| `Fidelity.InitialScheduleDoubles` | robo/fmin/fabolas.py:173-178 | within a period, for s_max >= 0, the next round's fidelity is between twice and twice plus one the current one, so the schedule never decreases |
| `Fidelity.InitialScheduleRises` | robo/fmin/fabolas.py:173-178 | within a period, for s_max >= 128, the next round's fidelity is strictly larger |
| `Fidelity.InitialScheduleFlatBelow128` | robo/fmin/fabolas.py:173-178 | for 0 <= s_max < 128, the first two rounds of a period both get fidelity 0 |
| `Argmin.ArgMin` | robo/fmin/fabolas.py:192 | numpy argmin: an index of a minimal value, and no earlier index holds that minimum |
| `Argmin.ArgMinCharacterized` | robo/fmin/fabolas.py:192 | an index equals the argmin exactly when it is minimal and first among the minima |
| `Argmin.ArgMinSnoc` | robo/fmin/fabolas.py:188-192 | after appending a value, the argmin moves to the new index exactly when the new value is strictly below the old minimum |
| `Argmin.ArgMinPrefixMonotone` | robo/fmin/fabolas.py:191-193 | the value at the argmin of a longer prefix is never above that of a shorter prefix, so initial incumbents never get worse |
| `FabolasLoop.DropLast` | robo/fmin/fabolas.py:229 | `v[:-1]`: one coordinate shorter (empty stays empty), and appending the last coordinate back gives v |
| `FabolasLoop.Configs` | robo/fmin/fabolas.py:213 | `X[:, :-1]`: one row per stored point, and each row with that point's last coordinate appended back is the stored point |
| `FabolasLoop.ConfigsSnoc` | robo/fmin/fabolas.py:213-236 | storing one more point extends `X[:, :-1]` by exactly that point's configuration |
| `FabolasLoop.InitialRoundStable` | robo/fmin/fabolas.py:187-193 | appending to the store and trajectory leaves every earlier initial round's record intact |
| `FabolasLoop.GuidedRoundStable` | robo/fmin/fabolas.py:208-238 | appending leaves every earlier guided round's record intact, including the data its trainings and projection saw |
| `FabolasLoop.InitialDesign` | robo/fmin/fabolas.py:175-196 | after n_init rounds: X, y, c, trajectory and objective calls have n_init entries; round k calls the objective with draw k at the scheduled fidelity and stores that configuration plus the transformed fidelity; its incumbent is X[argmin y[..k+1]] ++ [s_max]; no training or maximization happens |
| `FabolasLoop.GuidedSearch` | robo/fmin/fabolas.py:202-240 | only appends; fails exactly when X is empty and a guided round is due; otherwise gives every round one entry in X, y, c, trajectory and objective calls; round k: two trainings on X[..k], the incumbent is the projection of X[..k][:, :-1] onto s_max, the proposal is stored unchanged, the objective gets proposal[:-1] and retransform(proposal[-1]), one maximization |
| `FabolasLoop.Finalize` | robo/fmin/fabolas.py:243-251 | one more objective-model training with the library's default flag; fails exactly on an empty store; otherwise the final incumbent is the projection onto 1 with its last coordinate replaced by s_max, and x_opt is that projection without its last coordinate |
| `FabolasLoop.Fabolas` | robo/fmin/fabolas.py:62-256 | n_init > num_iterations, then a bounds-length mismatch, then a box of no dimensions, fail with no collaborator call; n_init <= 0 fails on the empty design; otherwise the run succeeds, X, y, c have num_iterations entries, every round is recorded as above, trainings number 2·(num_iterations − n_init) + 1, the trajectory has num_iterations + 1 entries, initial entries have D + 2 coordinates ending in s_max, guided entries have D + 1, the final one has D + 1 ending in s_max, x_opt is its prefix, and with n_init == num_iterations the only training is the final one and nothing is maximized |
| `FabolasLoop.FabolasAsWritten` | robo/fmin/fabolas.py:62-185 | as written, every run ends in an error; n_init > num_iterations, then a bounds-length mismatch, fail with no collaborator call; a box of no dimensions fails with no collaborator call; with valid arguments, D > 0 and n_init > 0 it raises at the one-argument transform call, after exactly one objective call and with nothing stored |
| `FabolasScenario.TwoInitialRounds` | robo/fmin/fabolas.py:173-251 | bounds [0,0]..[1,1], s_min 1, s_max 256, two rounds: two observations at fidelities 1 and 2, three trajectory entries, the second of which is the better of the two stored points (the first on a tie) with 256 appended, final fidelity 256, a single training and no maximization |

## Findings

| source | as written | input that shows it | evidently intended | confidence | as-written member | corrected member |
|---|---|---|---|---|---|---|
| robo/fmin/fabolas.py:185 | `transform(s)` passes one argument to `transform(s, s_min, s_max)`, defined at line 18 | the default `n_init=2, num_iterations=30`, with any `lower` and `upper` of equal non-zero length: the first initial round raises after its objective call | `transform(s, s_min, s_max)` | high; not executed | `FabolasLoop.FabolasAsWritten` | `FabolasLoop.Fabolas` |

## Left out

- The bodies of `transform` and `retransform` (robo/fmin/fabolas.py:18-25) use floating-point log, exp and rint. They are function parameters, so the round trip and monotonicity of the transform are not proved. `retransform` is modelled as returning an integer. `np.rint` in fact returns an integer-valued float, so the source passes the objective a Python int in initial rounds and a float in guided rounds. `Query.s` is an integer in both phases and does not record that difference.
- Kernel, prior, surrogate, acquisition and maximizer construction (robo/fmin/fabolas.py:81-171) configures libraries whose code is not part of this model. Apart from the `len(kernel)` failure of a box with no dimensions, which is modelled, the loop sees those objects only through the answers of `Collaborators`.
- The D + 1 shape of the maximizer's proposals and of the projections, and the D shape of the initial draws, are contracts of those collaborators. They enter as the requirement `Conforming`.
- The timing series `time_func_eval`, `time_overhead` and `runtime` are not modelled. Their values are wall-clock readings, and each only gains one entry per round. Logging and the seeding of `rng` are also left out (robo/fmin/fabolas.py:65-67).
- Exceptions raised inside collaborators are not modelled. The source lets them propagate; it has no retry.
- s_min, s_max and the raw fidelities are integers. `int(s_max / float(d))` is modelled exactly, without the rounding of float division for huge s_max.
- Observed values and costs are reals, so numpy's NaN-first argmin behaviour is not modelled.
- Whether the projection's returned array aliases anything is not modelled. The model treats `incumbent[-1] = s_max` as producing a new value.
