# Monte-Carlo option pricers, modelled in Dafny

This project models the pricing core of a small Python repository of
Monte-Carlo option pricers and proves properties of the model:

- **American options** (`simulations/american_options.py`). `timestep_GBM` builds
  a `sim_num × (timesteps + 1)` price matrix column by column.
  `american_put` / `american_call` run a least-squares Monte-Carlo loop. The
  loop overwrites a cash-flow vector where a path exercises, then discounts it.
  The vector is a view of the last payoff column. Module `AmericanOptions`,
  file `american_options.dfy`.
- **Asian options** (`simulations/asian_options.py`): row means of the price
  matrix, max-with-zero payoffs on those means, a whole-horizon discount.
  Module `AsianOptions`.
- **European options** (`simulations/european_options.py`): one terminal price
  per normal draw, one payoff per terminal price, the discounted average.
  Module `EuropeanOptions`.
- **Parameter validation** (`simulations/options.py`): the five-entry
  parameter table and the `validate` rule set. The subclasses add the
  'Timesteps' entry. Module `Options`.
- **Pi sampler** (`simulations/estimate_pi.py`): a counting loop over pairs of
  uniform samples. Module `EstimatePi`.
- `basics.dfy` (module `Basics`) holds the shared vocabulary:
  - `Result` for the exceptions Python would raise;
  - `Num` for a numpy float that may be NaN;
  - sums and means.

## How the source is represented

The numerical library work is an input to each operation:

- the random draws;
- `exp`, `sqrt` and the drift and diffusion formulas;
- the least-squares fit.

In detail:

- **Price matrices.** The per-step growth factors `exp(drift + diff * Z[i, t])`
  are a function `growth(i, t)`. The one-step discount `exp(-rf * dt)` is a real
  `disc`.
- **European pricer.** The terminal factor is a function `factor(z)` of the
  draw `z`. The i-th normal draw is `draws(i)`.
- **Least-squares fit.** `np.linalg.lstsq` is an oracle `fit` that returns the
  three coefficients of the basis 1, x, x². The continuation estimate
  `funcs @ coeffs` is then computed exactly, as `c0 + c1·x + c2·x²`.
- **Pi sampler.** The `random()` stream is a function `samples(k)`, the k-th
  call.
- **Prices.** Prices are `real`.

The imperative code stays imperative:

- `timestep_GBM` fills an `array2` column by column.
- The cash-flow loop writes into, and scales, the last column of the payoff
  matrix itself. Writing there is what the numpy view does.
- The European lists are built by loops that append.
- `validate` is a loop over the table.
- `estim_pi` is a counting loop.

Each method is proved against a reference function:
- `AmericanPrice` with `Flows`;
- `AsianPrice`;
- `EuropeanPrice`;
- `Validation`;
- `PiEstimate`.

The properties are lemmas about those functions.

The cash-flow loop is modelled as the code runs it, not as the
Longstaff–Schwartz method is usually described:

- **Direction.** The loop visits `t = 0, 1, …, timesteps` forward
  (`american_options.py:57`). The usual description walks backward from expiry.
- **Update order.** The exercise update comes before the discount, so a payoff
  taken at step t is discounted at step t too (`:85`, `:88`). The usual
  description discounts first.
- **Quiet steps.** A step with no in-the-money path `continue`s before the
  discount, so it leaves the flows completely unchanged (`:68-69`). The usual
  description still discounts such a step. `QuietStepUnchanged` and
  `UnexercisedPathDiscount` state the consequence: a path pays
  `disc^k`, where k counts only the steps that had an in-the-money path.
- **The last payoff column.** `flows` aliases that column (`:55`), so step
  `timesteps` reads the current flows as its payoff column.
  `TerminalStepOnlyDiscounts` shows that this step then only discounts.

Errors are modelled as the Python code raises them:

- `timesteps == 0` divides `time` by zero (`ZeroDivisionError`).
- A negative `sim_num`, or `timesteps < -1`, gives numpy a negative matrix
  dimension (`ValueError`). With `timesteps == -1` numpy builds a matrix with
  no columns, and writing its column 0 raises `IndexError`
  (`american_options.py:24-25`). Both are the one error `ShapeError`.
- `sim_num == 0` makes `np.mean` of an empty array NaN.
- The European pricers divide by `len(payoffs) == 0` when `sim_num <= 0`.
- `estim_pi(0)` divides by zero.
- `validate` raises `TypeError` when a non-rate value cannot be compared with
  0. The messages it printed before the exception are kept.

## Model

| member | source | states |
|---|---|---|
| `AmericanOptions.PathPrice` | simulations/american_options.py:24-38 | defines entry (i, t) of the simulated matrix: the initial price at t = 0, otherwise entry (i, t − 1) times the growth factor of path i at step t − 1 |
| `AmericanOptions.Payoff` | simulations/american_options.py:52 | a payoff (put `strike − price`, call `price − strike`, line 98) floored at 0: never negative, equal to the intrinsic value when positive, 0 only when the intrinsic value is not positive |
| `AmericanOptions.PriceColumns` | simulations/american_options.py:24-38 | the simulated matrix has `timesteps + 1` columns of `sim_num` entries each |
| `AmericanOptions.PayoffColumns` | simulations/american_options.py:52 | the payoff matrix has the shape of the price matrix |
| `AmericanOptions.Where` | simulations/american_options.py:83 | `np.where(mask)[0]` is strictly ascending and holds exactly the positions where the mask is true |
| `AmericanOptions.Regression` | simulations/american_options.py:64-79 | defines the coefficients fitted at one step: x is the prices of the in-the-money paths at that step, y their flows before the update times `disc`, in path order (call side lines 106-114) |
| `AmericanOptions.Exercises` | simulations/american_options.py:82-83 | defines the exercise test: the payoff at the step is positive (line 60) and greater than the fitted polynomial `c0 + c1·x + c2·x²` at the path's price (call side lines 104 and 116) |
| `AmericanOptions.Decide` | simulations/american_options.py:82-85 | the exercise update keeps the vector's length |
| `AmericanOptions.Step` | simulations/american_options.py:57-88 | one loop iteration keeps the cash-flow vector's length |
| `AmericanOptions.StepInput` | simulations/american_options.py:55 | defines the payoff column a step reads: column t for t < timesteps, the current flows at t == timesteps (the view); ensures one entry per path |
| `AmericanOptions.Advance` | simulations/american_options.py:57-88 | iteration t on the current flows keeps `sim_num` entries |
| `AmericanOptions.Flows` | simulations/american_options.py:55-88 | defines the cash flows after k forward iterations, seeded with the last payoff column; ensures `sim_num` entries after every iteration |
| `AmericanOptions.ActiveSteps` | simulations/american_options.py:68-69 | at most k of the first k steps discount |
| `AmericanOptions.EngineOf` | simulations/american_options.py:45-55 | the priced matrices have `sim_num` rows and `timesteps + 1` columns |
| `AmericanOptions.AmericanPrice` | simulations/american_options.py:42-123 | defines what `american_put` / `american_call` return: ZeroDivisionError for `timesteps == 0`, ShapeError for a negative size, otherwise numpy's mean of `Flows` after `timesteps + 1` iterations |
| `AmericanOptions.PathPricePositive` | simulations/american_options.py:37-38 | with a positive initial price and positive growth factors every simulated price is positive |
| `AmericanOptions.StepEntry` | simulations/american_options.py:60-88 | entry by entry: with no in-the-money path the entry is untouched; otherwise it becomes `payoff[i]` exactly when that payoff is strictly positive and strictly above the continuation estimate, else keeps its flow, and is then multiplied by `disc` once |
| `AmericanOptions.QuietStepUnchanged` | simulations/american_options.py:68-69 | a step with no in-the-money path leaves the whole cash-flow vector unchanged, undiscounted |
| `AmericanOptions.ActiveStepEntry` | simulations/american_options.py:82-88 | in a step with an in-the-money path, each flow becomes (exercised ? payoff at t : previous flow) × disc |
| `AmericanOptions.FlowsNonNegative` | simulations/american_options.py:85-88 | with non-negative payoffs and `disc > 0` the cash flows stay non-negative through every iteration |
| `AmericanOptions.UnexercisedPathDiscount` | simulations/american_options.py:68-88 | a path never exercised holds its terminal payoff times `disc^k`, k the number of steps that had an in-the-money path |
| `AmericanOptions.TerminalStepOnlyDiscounts` | simulations/american_options.py:55-88 | because `flows` aliases the last payoff column, the last iteration either leaves the flows alone or only scales them by `disc` |
| `AmericanOptions.AmericanPriceNonNegative` | simulations/american_options.py:85-90 | with `disc > 0` the returned mean of the flows is non-negative whenever it is a number |
| `AmericanOptions.TimestepGBM` | simulations/american_options.py:20-40 | ZeroDivisionError for `timesteps == 0`, ShapeError for negative sizes, else a fresh `sim_num × (timesteps+1)` matrix whose entry (i, t) is the initial price times the first t growth factors of path i (column 0 is the initial price) |
| `AmericanOptions.FirstColumn` | simulations/american_options.py:25 | column 0 of every row is the initial price, and every other column keeps its values |
| `AmericanOptions.FillColumns` | simulations/american_options.py:37-38 | after the loop every entry is the path price at its step |
| `AmericanOptions.FillColumn` | simulations/american_options.py:38 | column t becomes column t − 1 times the step's factors; no other column changes |
| `AmericanOptions.PayoffMatrix` | simulations/american_options.py:52 | a fresh matrix of the same shape whose every entry is the payoff of the price there (line 98 for a call) |
| `AmericanOptions.AssignRows` | simulations/american_options.py:85 | `a[rows, c] = values` writes exactly the listed rows of column c and nothing else |
| `AmericanOptions.ScaleColumn` | simulations/american_options.py:88 | `flows *= disc` scales exactly column c |
| `AmericanOptions.InTheMoneyWhere` | simulations/american_options.py:60-69 | the regression input is empty exactly when no path is in the money |
| `AmericanOptions.UpdateRows` | simulations/american_options.py:79-83 | `np.where(profits)[0][put_now]` holds path i exactly when its payoff is strictly positive and strictly above the fitted value at its price |
| `AmericanOptions.UpdatedRowExercises` | simulations/american_options.py:82-83 | every updated row is in the money and above its continuation estimate |
| `AmericanOptions.ExercisingRowUpdated` | simulations/american_options.py:82-83 | every row in the money and above its continuation estimate is updated |
| `AmericanOptions.Induct` | simulations/american_options.py:55-88 | after the forward loop `t = 0 .. timesteps` the last payoff column holds `Flows` after all iterations; the other payoff columns are untouched |
| `AmericanOptions.Iteration` | simulations/american_options.py:58-88 | one loop body turns the flows column into `Advance` of what it held, including the early `continue` |
| `AmericanOptions.ExerciseAndDiscount` | simulations/american_options.py:76-88 | with the fit's coefficients, the flows column becomes the exercise decisions times `disc` |
| `AmericanOptions.OverwriteExercised` | simulations/american_options.py:79-85 | each flow becomes its payoff when the payoff is strictly positive and strictly above `c0 + c1·x + c2·x²`, else stays |
| `AmericanOptions.Price` | simulations/american_options.py:42-90 | the imperative pricer returns exactly `AmericanPrice`, errors included |
| `AmericanOptions.AmericanPut` | simulations/american_options.py:42-90 | the put returns `AmericanPrice` for the put payoff |
| `AmericanOptions.AmericanCall` | simulations/american_options.py:92-123 | the call returns `AmericanPrice` for the call payoff |
| `AmericanOptions.NewAmerican` | simulations/american_options.py:11-17 | the base validation runs on the five parameters only; on success the object's table is the five entries followed by ('Timesteps', timesteps), default 1 |
| `AsianOptions.ArithmeticMean` | simulations/asian_options.py:19-23 | one mean per row, each numpy's mean of that row (row sum over the column count, NaN with no columns) |
| `AsianOptions.RowMeanBetweenMinMax` | simulations/asian_options.py:22-23 | each row mean lies between the row's minimum and maximum |
| `AsianOptions.ConstantRowMean` | simulations/asian_options.py:22-23 | a constant row averages to that constant |
| `AsianOptions.Payoffs` | simulations/asian_options.py:45 | call `max(mean − strike, 0)`, put `max(strike − mean, 0)` (line 57): non-negative, at least the intrinsic value, and either 0 or the intrinsic value |
| `AsianOptions.CallMinusPut` | simulations/asian_options.py:45 | per path, call payoff minus put payoff is `mean − strike` |
| `AsianOptions.Discounted` | simulations/asian_options.py:48 | discounting the mean keeps NaN as NaN, and turns a non-negative mean into a non-negative price when `disc ≥ 0` |
| `AsianOptions.PathRows` | simulations/asian_options.py:37 | the simulated matrix as `sim_num` rows of `timesteps + 1` entries |
| `AsianOptions.AsianPrice` | simulations/asian_options.py:30-58 | defines what `asian_call` / `asian_put` with `arithmetic_mean` return: the errors of `timestep_GBM`, otherwise `disc` times numpy's mean of the payoffs on the row means |
| `AsianOptions.AsianPriceNonNegative` | simulations/asian_options.py:41-48 | with `disc >= 0` the price is non-negative whenever it is a number |
| `AsianOptions.AsianPriceNaN` | simulations/asian_options.py:48 | with valid sizes the price is NaN exactly when no path is simulated |
| `AsianOptions.Price` | simulations/asian_options.py:30-48 | the pricer returns exactly `AsianPrice`: a single whole-horizon `disc` times the mean payoff on the row means |
| `AsianOptions.AsianCall` | simulations/asian_options.py:30-48 | the call returns `AsianPrice` for the call payoff |
| `AsianOptions.AsianPut` | simulations/asian_options.py:50-58 | the put returns `AsianPrice` for the put payoff |
| `AsianOptions.NewAsian` | simulations/asian_options.py:10-16 | the parent is built with timesteps 1, then `timesteps` and the 'Timesteps' entry are overwritten in place with the caller's value (default 1, default strike 0) |
| `AsianOptions.DefaultStrikeWarns` | simulations/asian_options.py:10-11 | with the default strike 0 and positive other values construction prints exactly "Strike price is less than 0." |
| `EuropeanOptions.EuropeanPrice` | simulations/european_options.py:35-56 | defines what `european_call` / `european_put` return: ZeroDivisionError when there are no payoffs, otherwise `disc` times their average |
| `EuropeanOptions.TerminalPrices` | simulations/european_options.py:21-33 | `sim_num` terminal prices, none when `sim_num <= 0` |
| `EuropeanOptions.PayoffList` | simulations/european_options.py:42-44 | one payoff per terminal price, each non-negative |
| `EuropeanOptions.TerminalPricesPositive` | simulations/european_options.py:31 | each terminal price is the initial price times a positive factor, so positive when the initial price is |
| `EuropeanOptions.EuropeanPriceNonNegative` | simulations/european_options.py:46 | with a non-negative discount the price is non-negative |
| `EuropeanOptions.EuropeanPriceFails` | simulations/european_options.py:46 | the division by `len(payoffs)` fails exactly when `sim_num <= 0` |
| `EuropeanOptions.EuropeanParity` | simulations/european_options.py:42-56 | on the same draws, call price minus put price is `disc · (mean(ST) − strike)` |
| `EuropeanOptions.MeanGap` | simulations/european_options.py:46 | payoffs whose call−put gap is `ST − strike` have means that differ by `mean(ST) − strike` |
| `EuropeanOptions.EuropeanOptions.constructor` | simulations/european_options.py:11-19 | the six arguments are stored as given, `time_steps` defaulting to 1 |
| `EuropeanOptions.EuropeanOptions.GBM` | simulations/european_options.py:21-33 | exactly `sim_num` terminal prices (none for `sim_num <= 0`), the i-th from the i-th draw, in draw order |
| `EuropeanOptions.EuropeanOptions.Payoffs` | simulations/european_options.py:42-44 | one payoff per terminal price, in order |
| `EuropeanOptions.EuropeanOptions.Price` | simulations/european_options.py:35-46 | returns exactly `EuropeanPrice`: discount times sum over count, ZeroDivisionError for no paths; `time_steps` plays no part |
| `EuropeanOptions.EuropeanOptions.EuropeanCall` | simulations/european_options.py:35-46 | the call returns `EuropeanPrice` for the call payoff |
| `EuropeanOptions.EuropeanOptions.EuropeanPut` | simulations/european_options.py:48-56 | the put returns `EuropeanPrice` for the put payoff |
| `Options.Table` | simulations/options.py:26-32 | defines the parameter table: the five entries in insertion order |
| `Options.SetEntry` | simulations/american_options.py:17 | defines the dictionary write: an existing key keeps its place and takes the new value, a new key goes last |
| `Options.Message` | simulations/options.py:40-42 | defines the two printed lines, "<key> is not a number!" and "<key> is less than 0." |
| `Options.Check` | simulations/options.py:39-42 | defines `validate` on one entry: the type warning for a value that is not int or float, then, except for the rate, TypeError for a value that does not compare with 0 or the sign warning for one ≤ 0 |
| `Options.Validation` | simulations/options.py:36-42 | defines `validate` over a table: `Check` entry by entry in insertion order, nothing after a TypeError |
| `Options.SetEntryLookup` | simulations/american_options.py:17 | after `table[key] = v` the key reads `v` |
| `Options.SetEntryLookupOther` | simulations/american_options.py:17 | after `table[key] = v` every other key reads as before |
| `Options.SetEntryKeys` | simulations/asian_options.py:16 | a dictionary write keeps the key order and appends only a new key |
| `Options.SetEntryAppends` | simulations/american_options.py:17 | writing the absent key 'Timesteps' appends it after the five parameters |
| `Options.SetEntryTwice` | simulations/asian_options.py:16 | the Asian overwrite of 'Timesteps' leaves the table as if only the caller's value had been written |
| `Options.TableKeys` | simulations/options.py:26-32 | the table's keys are strike, volatility, rate, time, initial price in that order, and not 'Timesteps' |
| `Options.MessagesAppend` | simulations/options.py:38-42 | the lines printed for two runs of warnings are the first run's lines followed by the second's |
| `Options.PrintedInOrder` | simulations/options.py:38-42 | when the first part of a table does not raise, `validate` over the whole table prints the first part's lines, then the rest's, and ends as the rest ends |
| `Options.ValidationAppend` | simulations/options.py:38-42 | validating a table is validating its front and then its rest: warnings follow insertion order, and nothing runs after a TypeError |
| `Options.RaisedPrefix` | simulations/options.py:41 | after a TypeError the remaining entries are never examined |
| `Options.ValidationRaises` | simulations/options.py:41 | `validate` raises exactly when a non-rate value cannot be compared with 0, and the error is TypeError; numeric input never raises |
| `Options.SignWarning` | simulations/options.py:41-42 | in a table where every non-rate value compares with 0, a key gets "is less than 0." exactly when it is not the rate and a value of it is ≤ 0, 0 included |
| `Options.RateNeverSignWarns` | simulations/options.py:41 | the risk-free rate never gets the sign warning, whatever its value |
| `Options.TypeWarning` | simulations/options.py:39-40 | in a table where every non-rate value compares with 0, a key gets "is not a number!" exactly when a value of it is neither int nor float |
| `Options.NumericTable` | simulations/options.py:26-42 | on five numbers construction completes and warns, in order, for each of strike, volatility, time and initial price that is ≤ 0 |
| `Options.Options.Init` | simulations/options.py:21-32 | the five fields and the table hold the arguments, in the fixed order |
| `Options.Options.Validate` | simulations/options.py:36-42 | the loop reports exactly `Validation` of the table |
| `Options.Options.SetTimesteps` | simulations/american_options.py:13-17 | `timesteps` and the 'Timesteps' entry take the value; the five fields are unchanged |
| `Options.New` | simulations/options.py:11-34 | construction prints the validation messages and yields the object unless validation raised TypeError |
| `EstimatePi.InsideCount` | simulations/estimate_pi.py:4-9 | defines the counter after n pairs: one more for each pair with `x² + y² < 1` |
| `EstimatePi.PiEstimate` | simulations/estimate_pi.py:10 | defines the return value `pi_count / sample_count * 4`, ZeroDivisionError for a count of 0 |
| `EstimatePi.CountIsCardinality` | simulations/estimate_pi.py:5-9 | the counter equals the number of pairs with `x² + y² < 1` |
| `EstimatePi.CountBound` | simulations/estimate_pi.py:4-9 | the counter never exceeds the number of pairs, and is below it once a pair is outside |
| `EstimatePi.OnCircleNotCounted` | simulations/estimate_pi.py:8 | a pair exactly on the unit circle is not counted |
| `EstimatePi.AllInside` | simulations/estimate_pi.py:5-9 | when every pair is inside, the counter equals the number of pairs |
| `EstimatePi.PiEstimateRange` | simulations/estimate_pi.py:10 | the estimate fails exactly for `sample_count == 0`, lies in [0, 4] for a positive count, and is 0 for a negative one |
| `EstimatePi.AllInsideGivesFour` | simulations/estimate_pi.py:10 | all pairs inside gives exactly 4 |
| `EstimatePi.EstimPi` | simulations/estimate_pi.py:3-10 | the loop returns exactly `PiEstimate`, consuming two samples per iteration, y then x |
| `Basics.Max0` | simulations/asian_options.py:45 | `max(x, 0)` is non-negative, at least x, and either 0 or x |
| `Basics.NpMean` | simulations/asian_options.py:48 | `np.mean` is NaN exactly for an empty array |

## Left out

- Random generation: `np.random.normal`, `random.gauss` and `random()` are
  inputs. Nothing about their distribution is stated.
- `np.exp`, `np.sqrt`, `e**` and the drift and diffusion formulas are also
  inputs, as growth factors, terminal factors and the discount.
- Floating point: prices are exact reals. There is no rounding, overflow,
  infinity or NaN input. The only NaN is the mean of an empty array.
- `np.linalg.lstsq` and the quadratic design matrix: the fit is an arbitrary
  oracle on the in-the-money prices and discounted flows. The model does not
  state that its coefficients minimise the squared error. The put and the
  call build the design matrix transposed from each other. For the same data
  the product `funcs @ coeffs` is the same.
- `geometric_mean` is left out: it uses a fractional floating-point power.
  `asian_call` and `asian_put` are modelled with `arithmetic_mean` as the
  mean function.
- `Options.GBM` is left out: it is a floating-point formula over random draws.
- `delta` is left out: it is a finite-difference wrapper around two random
  repricings.
- The statistical claims are left out: convergence to Black–Scholes,
  reference price bands, put-call limits.
- Module-level construct-and-print statements and the console output of
  `validate` are left out. The messages are returned as data instead.
- numpy's RuntimeWarning for the mean of an empty array ("Mean of empty
  slice"), printed when `sim_num == 0`, and the warning of the division by a
  zero column count in `arithmetic_mean` are left out. The model keeps only
  the NaN they come with.
- The pricing methods take numeric parameters. Their link to the `Options`
  object built by `NewAmerican` / `NewAsian` is not modelled. The object holds
  arbitrary Python values, and the pricing formulas need numbers.
- `sim_num` and `timesteps` are modelled as integers. A non-integer value,
  which numpy or `range` would reject with TypeError, is not modelled.
- `EstimatePi.EstimPi`: a negative `sample_count` gives 0.0 where Python gives
  -0.0. The sign of zero is not representable in reals.
- `Options.Options.Validate`: a float NaN parameter is not representable. A
  NaN compares false with 0 and would get no sign warning.
- The European class holds its fields as reals. Its constructor does not
  validate them, and neither does the source's.
