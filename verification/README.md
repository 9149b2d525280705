# pyssa `Simulation` front end in Dafny

This project models the front end of pyssa's `Simulation` class
(`pyssa/simulation.py`). pyssa is a Gillespie direct-method simulator for
reaction networks. The model covers three parts:

- **Construction.** `Simulation(react_stoic, prod_stoic, init_state, k_det, chem_flag, volume)`
  stores its arguments. It takes the number of reactions `nr` and species `ns`
  from the shape of `react_stoic`, and the order of each reaction from the row
  sums of that matrix. Then a chain of guards runs, and the first guard that
  fails raises `ValueError`. Here the constructor is `Pyssa.Simulation.constructor`,
  the guard chain is `Pyssa.CheckConsistency`, and `Pyssa.Create` is the call
  `Simulation(...)`: it returns `Failure(error)` where Python raises, and
  `Success(object)` otherwise.
- **`simulate`.** It checks the seed list or makes the default one, checks the
  algorithm tag, runs one replicate per seed in index order, and only then
  stores a `Results` record. `Pyssa.Simulation.Outcome` is the reference
  definition of what one call produces. `Pyssa.Simulation.Simulate` is the
  imperative method with the source's loop (in `RunReplicates`), and it is
  proved against `Outcome`.
- **The `results` property.** `Pyssa.Simulation.GetResults` returns the stored
  value. That value is `None` exactly until a call of `simulate` has succeeded.

Two helper definitions carry the meaning of the contracts below.
`Pyssa.Holds(e, ...)` is the condition the guard reporting error `e` demands
(pyssa/simulation.py:97-114), written with quantifiers independently of the
numpy reductions the check uses. `Pyssa.Simulation.Call` is the argument list
of one engine call (pyssa/simulation.py:192-202): the stored matrices, initial
state, rate constants and `chem_flag`, with `simulate`'s own `max_t`,
`max_iter`, `volume` and the replicate's seed.

The numpy operations the constructor uses are modelled in module `Arrays`:
2-D integer arrays with their shape, `np.sum(a, 1)`, `np.any` of an
elementwise test, and `np.max`. Module `Fixtures` shows that the linear-chain
networks of `tests/conftest.py` pass the check.

The stepping engine `direct_naive` is not part of this model. `Simulate`
takes it as an object `Pyssa.Engine`. Its `run` is a total, deterministic
function of the nine arguments `simulate` passes. Its method `Step` is one
call of the engine: it returns `run` of the arguments and appends them to the
engine's call log `log`. `Results` is likewise not
part of this model; it is a record of the five values passed to it.

Where the code and its documentation differ, the model follows the code:

- `np.max` raises `ValueError` on an empty array. So a network with no
  reactions (zero rows in `react_stoic`) is rejected at the order guard. This is
  the error `NoReactions`, placed just before `OrderTooHigh`.
- The length of `init_state` is never compared with `ns`, and `volume` is
  never checked. The model checks neither (`ChainNetworkAccepted` accepts any
  non-negative initial state, whatever its length).
- `simulate` passes its own `volume` argument (default 1.0) to the engine, not
  the `volume` given to the constructor. The stored volume is never read.
  `Outcome` and `Simulate` state this through `Call`, which takes the volume
  argument of `simulate`.
- The docstring of `simulate` describes `t` as a float. `plot` uses each
  entry of `t_list` as a sequence, so `Run.t` is a sequence of times.
- Status codes 1, 2, 3, -1 and -2 are the datatype `Status`. `Status.Code`
  gives the integer, and `StatusOf` reads an integer back. The front end never
  decodes a status; `StatusOf` only documents the code table.

## Model

| member | source | states |
|---|---|---|
| `Arrays.RowSums` | pyssa/simulation.py:91-93 | one order per reaction (row); entry `r` is the sum of row `r` of the reactant matrix |
| `Arrays.RowSumNonNegative` | pyssa/simulation.py:91-93 | a row with no negative coefficient has a non-negative order |
| `Arrays.EntryAtMostRowSum` | pyssa/simulation.py:91-93 | in a non-negative row each coefficient is at most the order, so order ≤ 3 bounds every coefficient |
| `Arrays.Any` | pyssa/simulation.py:101-108 | `np.any` of a test is true exactly when some element passes it |
| `Arrays.AnyEntry` | pyssa/simulation.py:101-104 | `np.any` over a matrix is true exactly when some entry `(r, s)` within the shape passes the test |
| `Arrays.Max` | pyssa/simulation.py:113 | `np.max` of a non-empty vector bounds every element and is one of them |
| `Pyssa.CheckConsistency` | pyssa/simulation.py:96-114 | `None` exactly when every guard holds; otherwise the error of a guard that fails while every earlier guard (shape, negative reactants, products, initial state, rates, rate count, non-empty orders, order ≤ 3) holds |
| `Pyssa.AcceptedNetworkIsWellFormed` | pyssa/simulation.py:96-114 | an accepted network has equal shapes, no negative entry in either matrix, the initial state or the rates, one rate per reaction, at least one reaction, every order in 0..3 and every reactant coefficient ≤ 3 |
| `Pyssa.StatusOf` | pyssa/simulation.py:172-178 | a decoded code has exactly that code; an undocumented integer is the code of no status |
| `Pyssa.StatusCodeRoundTrip` | pyssa/simulation.py:172-178 | decoding a status's code gives the status back; success statuses are exactly the positive codes |
| `Pyssa.DefaultSeeds` | pyssa/simulation.py:187-188 | without a seed list, replicate `i` gets seed `i`; a replicate count below 1 gives no seeds |
| `Pyssa.Simulation.constructor` | pyssa/simulation.py:83-93 | fields hold the arguments; `nr`/`ns` are the row/column counts of `react_stoic`; `orders[r]` is the sum of row `r`; no results yet |
| `Pyssa.Create` | pyssa/simulation.py:74-94 | construction fails exactly when the check reports an error, with that error; on success the fresh object is valid, holds the arguments and has no results |
| `Pyssa.Simulation.Outcome` | pyssa/simulation.py:180-208 | fails exactly when a supplied seed list's length differs from `n_rep` (`SeedLengthMismatch`, checked first) or else the tag is not `"direct_naive"` (`UnsupportedAlgorithm`); on success the three lists have one entry per replicate (`max(n_rep, 0)`), the seeds are the supplied or default ones, and entry `i` is the engine's output for the stored network and `chem_flag`, and the call's `max_t`, `max_iter`, `volume` and seed `i` |
| `Pyssa.Engine.Step` | pyssa/simulation.py:192-202 | one engine call returns the engine's run for exactly these arguments and is appended to the engine's call log |
| `Pyssa.Simulation.RunReplicates` | pyssa/simulation.py:190-205 | the engine's call log grows by exactly one call per seed, in index order, each with the stored network and the same settings; entry `i` of each list is the run of the call with seed `seeds[i]` |
| `Pyssa.Simulation.Simulate` | pyssa/simulation.py:180-208 | stores exactly `Outcome`'s results on success, and the engine's call log grows by exactly one call per seed in index order; on an error the call log and the stored results are unchanged; the object invariant is kept |
| `Pyssa.Simulation.GetResults` | pyssa/simulation.py:116-129 | returns the stored value; it is `None` exactly when no call of `Simulate` has succeeded |
| `Pyssa.EqualSeedsGiveEqualReplicates` | pyssa/simulation.py:190-206 | two replicates with equal seeds have equal times, states and statuses |
| `Fixtures.ChainNetworkAccepted` | tests/conftest.py:9-24 | every linear chain with 1 ≤ `nr` ≤ `ns`, non-negative counts and `nr` non-negative rates passes the check, and each of its reactions has order 1 |
| `Fixtures.BasicFixtureAccepted` | tests/conftest.py:9-15 | the `setup_basic` network passes the check |
| `Fixtures.LargeFixtureAccepted` | tests/conftest.py:18-24 | the `setup_large` network passes the check |

## Left out

- `direct_naive` (pyssa/direct_naive.py) is not part of this model. It is the object `engine`, whose answer to each call is a total deterministic function `run`; no propensity or event sampling is modelled.
- `Pyssa.Engine.run` is a plain function value, so a method could read it without calling `Step`; the model's engine calls, the ones the call log records, are the `Step` calls.
- `Results` (pyssa/results.py) is not part of this model. It is a record of the five values `simulate` passes to it.
- An exception raised by the engine partway through the loop is not modelled, because the engine parameter is total. In Python the stored results would then stay unchanged.
- The engine receives the same `init_state` array for every replicate. Whether it mutates that array is not modelled, because the engine's answers are a function of values.
- `plot` is left out: it is matplotlib output and `print`.
- The `warn` call in the `results` property is left out as an I/O diagnostic. Only the returned value is modelled.
- The `chem_flag not in (True, False)` guard is left out: `chemFlag` has type `bool`, so the guard always passes.
- Rate constants and volumes are `real`: only their signs and counts are checked. Floating-point NaN (which passes the `< 0` tests) is not modelled.
- The program also accepts non-integer arrays (a float `react_stoic` such as `[[0.5, 0.5]]` has order 1.0 and passes every guard; so does a float `init_state`) and higher-dimensional ones (a 3-D `react_stoic`/`prod_stoic` pair has `shape[0]` and `shape[1]`, and `np.sum(·, 1)`, `np.any` and `np.max` all apply to it). The model does not represent these: stoichiometry matrices are 2-D `int` arrays and initial counts a 1-D `int` sequence. A 1-D `react_stoic` makes the program raise `IndexError` at pyssa/simulation.py:89, which the model's types also rule out.
- Default argument values (`chem_flag=False`, `volume=1.0`, `max_t=10.0`, `max_iter=1000`, `seed=None`, `n_rep=1`, `algorithm="direct_naive"`) are not modelled; callers pass every argument. The unused `**kwargs` of `simulate` is not modelled.
- `Pyssa.CheckConsistency`: matrix entries are unbounded integers, so the int64 wrap-around of numpy's row sum `np.sum(react_stoic, 1)` is not modelled. In the program a row whose sum reaches 2^63 wraps to a negative order and passes the order guard; the model reports `OrderTooHigh` for it.
- `Pyssa.AcceptedNetworkIsWellFormed`: its bounds (every order in 0..3, every reactant coefficient at most 3) hold for the program only while every row sum of `react_stoic` stays below 2^63, because the int64 wrap-around of the row sum is not modelled.
- `Arrays.RowSums`: it is the exact integer row sum; numpy's int64 sum wraps around on overflow, which is not modelled.
- The arrays `react_stoic`, `prod_stoic`, `init_state` and `k_det` are stored by reference and stay owned by the caller, who may mutate them after construction. Then `simulate` passes the mutated arrays to the engine without re-running the check, and `_orders` goes stale. The model stores them as values fixed at construction, so `Valid` (accepted network, `orders` equal to the row sums) holds for ever; aliasing with the caller is not captured.
- The caller's `seed` list is stored by reference in `Results`, so later changes to that list show through the stored results. The model stores the seeds as a value; this aliasing is not captured.
