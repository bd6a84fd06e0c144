/**
 * The early-exercise (American) pricer of simulations/american_options.py: a
 * price matrix simulated column by column, a payoff matrix, and the
 * least-squares Monte-Carlo loop that overwrites and discounts a cash-flow
 * vector in place.
 *
 * The random draws and `np.exp` are replaced by a growth-factor input
 * `growth(i, t)` (the factor applied to path i between steps t and t + 1),
 * the one-step discount `exp(-rf * dt)` by the input `disc`, and
 * `np.linalg.lstsq` by an oracle `fit` that returns the three coefficients of
 * the basis 1, x, x^2. The continuation estimate is then computed exactly.
 */
module AmericanOptions {
  import opened Basics
  import Options

  datatype Kind = Put | Call

  /** Coefficients of c0 + c1 * x + c2 * x^2, as returned by the least-squares fit. */
  datatype Coeffs = Coeffs(c0: real, c1: real, c2: real)

  type Growth = (nat, nat) -> real
  type Fit = (seq<real>, seq<real>) -> Coeffs

  // ---------------------------------------------------------------------------
  // Path simulation and payoffs
  // ---------------------------------------------------------------------------

  /** The price of path i at step t: the initial price times the first t growth factors. */
  function PathPrice(initPrice: real, growth: Growth, i: nat, t: nat): real
  {
    if t == 0 then initPrice else PathPrice(initPrice, growth, i, t - 1) * growth(i, t - 1)
  }

  /** The value of exercising at `price` before flooring at zero. */
  function Intrinsic(kind: Kind, strike: real, price: real): real
  {
    match kind
    case Put => strike - price
    case Call => price - strike
  }

  /** `np.maximum(strike - paths, 0)` for a put, `np.maximum(paths - strike, 0)` for a call. */
  function Payoff(kind: Kind, strike: real, price: real): (r: real)
    ensures r >= 0.0
    ensures r > 0.0 ==> r == Intrinsic(kind, strike, price)
    ensures r == 0.0 ==> Intrinsic(kind, strike, price) <= 0.0
  {
    Max0(Intrinsic(kind, strike, price))
  }

  /** The columns 0 .. timesteps of the simulated path matrix. */
  function PriceColumns(simNum: nat, timesteps: nat, initPrice: real, growth: Growth): (r: seq<seq<real>>)
    ensures |r| == timesteps + 1
    ensures forall t :: 0 <= t < |r| ==> |r[t]| == simNum
  {
    seq(timesteps + 1, t requires 0 <= t <= timesteps =>
      seq(simNum, i requires 0 <= i < simNum => PathPrice(initPrice, growth, i, t)))
  }

  /** The columns of the payoff matrix, entry by entry the payoff of the price matrix. */
  function PayoffColumns(kind: Kind, strike: real, prices: seq<seq<real>>): (r: seq<seq<real>>)
    ensures |r| == |prices|
    ensures forall t :: 0 <= t < |r| ==> |r[t]| == |prices[t]|
  {
    seq(|prices|, t requires 0 <= t < |prices| =>
      seq(|prices[t]|, i requires 0 <= i < |prices[t]| => Payoff(kind, strike, prices[t][i])))
  }

  // ---------------------------------------------------------------------------
  // numpy vocabulary: masks, fancy indexing, elementwise arithmetic
  // ---------------------------------------------------------------------------

  ghost predicate Increasing(r: seq<nat>)
  {
    forall j, k :: 0 <= j < k < |r| ==> r[j] < r[k]
  }

  /** `np.where(mask)[0]`: the positions where the mask holds, in ascending order. */
  function Where(mask: seq<bool>): (r: seq<nat>)
    ensures Increasing(r)
    ensures forall j :: 0 <= j < |r| ==> r[j] < |mask| && mask[r[j]]
    ensures forall i :: 0 <= i < |mask| && mask[i] ==> i in r
  {
    if mask == [] then []
    else
      var last := |mask| - 1;
      var front := Where(mask[..last]);
      assert forall j :: 0 <= j < |front| ==> front[j] < last && mask[front[j]];
      front + (if mask[last] then [last] else [])
  }

  /** Fancy indexing `s[idx]`. */
  function Select<T>(s: seq<T>, idx: seq<nat>): (r: seq<T>)
    requires forall j :: 0 <= j < |idx| ==> idx[j] < |s|
    ensures |r| == |idx|
  {
    seq(|idx|, j requires 0 <= j < |idx| => s[idx[j]])
  }

  /** `s * d`. */
  function Scale(s: seq<real>, d: real): (r: seq<real>)
    ensures |r| == |s|
  {
    seq(|s|, i requires 0 <= i < |s| => s[i] * d)
  }

  /** `s > 0`: the in-the-money mask of a payoff column. */
  function Positive(s: seq<real>): (r: seq<bool>)
    ensures |r| == |s|
  {
    seq(|s|, i requires 0 <= i < |s| => s[i] > 0.0)
  }

  /** `a > b` elementwise. */
  function Exceeds(a: seq<real>, b: seq<real>): (r: seq<bool>)
    requires |a| == |b|
    ensures |r| == |a|
  {
    seq(|a|, j requires 0 <= j < |a| => a[j] > b[j])
  }

  function Poly(c: Coeffs, x: real): real
  {
    c.c0 + c.c1 * x + c.c2 * x * x
  }

  /** `np.matmul(funcs, coeffs)` with `funcs` the columns 1, x, x^2. */
  function Fitted(c: Coeffs, xs: seq<real>): (r: seq<real>)
    ensures |r| == |xs|
  {
    seq(|xs|, j requires 0 <= j < |xs| => Poly(c, xs[j]))
  }

  // ---------------------------------------------------------------------------
  // The reference definition of the cash-flow loop
  // ---------------------------------------------------------------------------

  predicate AnyInTheMoney(pay: seq<real>)
  {
    exists i :: 0 <= i < |pay| && pay[i] > 0.0
  }

  /** The coefficients the fit returns for one step: regressed on the in-the-money prices and their discounted flows. */
  function Regression(prices: seq<real>, pay: seq<real>, flows: seq<real>, disc: real, fit: Fit): Coeffs
    requires |prices| == |pay| == |flows|
  {
    var itm := Where(Positive(pay));
    fit(Select(prices, itm), Scale(Select(flows, itm), disc))
  }

  /** Path i exercises: its payoff is strictly positive and strictly above its continuation estimate. */
  predicate Exercises(prices: seq<real>, pay: seq<real>, flows: seq<real>, disc: real, fit: Fit, i: nat)
    requires |prices| == |pay| == |flows| && i < |pay|
  {
    pay[i] > 0.0 && pay[i] > Poly(Regression(prices, pay, flows, disc, fit), prices[i])
  }

  /**
   * The exercise update, path by path: an exercising path takes its payoff
   * at this step, every other path keeps its flow.
   */
  function Decide(prices: seq<real>, pay: seq<real>, flows: seq<real>, disc: real, fit: Fit): (r: seq<real>)
    requires |prices| == |pay| == |flows|
    ensures |r| == |flows|
  {
    seq(|flows|, i requires 0 <= i < |flows| =>
      if Exercises(prices, pay, flows, disc, fit, i) then pay[i] else flows[i])
  }

  /**
   * One pass of the loop body: with no path in the money the body stops before
   * touching the flows (no update, no discount); otherwise the exercise
   * decisions are applied and then every entry is discounted.
   */
  function Step(prices: seq<real>, pay: seq<real>, flows: seq<real>, disc: real, fit: Fit): (r: seq<real>)
    requires |prices| == |pay| == |flows|
    ensures |r| == |flows|
  {
    if !AnyInTheMoney(pay) then flows else Scale(Decide(prices, pay, flows, disc, fit), disc)
  }

  /**
   * What the cash-flow loop works on: `n` paths, the price columns, the payoff
   * columns as first computed, the one-step discount and the fit.
   */
  datatype Engine = Engine(n: nat, prices: seq<seq<real>>, pays: seq<seq<real>>, disc: real, fit: Fit)

  /** Both matrices have the same number (at least one) of columns, each of n entries. */
  predicate Shaped(e: Engine)
  {
    |e.prices| == |e.pays| > 0 &&
    (forall t :: 0 <= t < |e.prices| ==> |e.prices[t]| == e.n) &&
    (forall t :: 0 <= t < |e.pays| ==> |e.pays[t]| == e.n)
  }

  /**
   * The payoff column the loop reads at step t. Because `flows` is a view of
   * the last payoff column, at the last step that column is the current flows.
   */
  function StepInput(e: Engine, t: nat, flows: seq<real>): (r: seq<real>)
    requires Shaped(e) && t < |e.pays| && |flows| == e.n
    ensures |r| == e.n
  {
    if t == |e.pays| - 1 then flows else e.pays[t]
  }

  /** Iteration t of the loop, run on the current flows. */
  function Advance(e: Engine, t: nat, flows: seq<real>): (r: seq<real>)
    requires Shaped(e) && t < |e.pays| && |flows| == e.n
    ensures |r| == e.n
  {
    Step(e.prices[t], StepInput(e, t, flows), flows, e.disc, e.fit)
  }

  /** The cash-flow vector after the loop has run t = 0, 1, ..., k - 1, seeded with the last payoff column. */
  function Flows(e: Engine, k: nat): (r: seq<real>)
    requires Shaped(e) && k <= |e.pays|
    ensures |r| == e.n
  {
    if k == 0 then e.pays[|e.pays| - 1] else Advance(e, k - 1, Flows(e, k - 1))
  }

  /** Step t has at least one in-the-money path, so it runs and discounts. */
  predicate Active(e: Engine, t: nat)
    requires Shaped(e) && t < |e.pays|
  {
    AnyInTheMoney(StepInput(e, t, Flows(e, t)))
  }

  /** Path i is overwritten with its payoff at step t. */
  predicate ExercisedAt(e: Engine, t: nat, i: nat)
    requires Shaped(e) && t < |e.pays| && i < e.n
  {
    Exercises(e.prices[t], StepInput(e, t, Flows(e, t)), Flows(e, t), e.disc, e.fit, i)
  }

  /** The number of steps among 0 .. k - 1 that have an in-the-money path. */
  function ActiveSteps(e: Engine, k: nat): (r: nat)
    requires Shaped(e) && k <= |e.pays|
    ensures r <= k
  {
    if k == 0 then 0 else ActiveSteps(e, k - 1) + (if Active(e, k - 1) then 1 else 0)
  }

  function Pow(d: real, k: nat): real
  {
    if k == 0 then 1.0 else Pow(d, k - 1) * d
  }

  /** The engine `american_put` / `american_call` run for the given parameters. */
  function EngineOf(kind: Kind, strike: real, initPrice: real, simNum: nat, timesteps: nat,
                    growth: Growth, fit: Fit, disc: real): (e: Engine)
    ensures Shaped(e) && e.n == simNum && |e.pays| == timesteps + 1
  {
    var prices := PriceColumns(simNum, timesteps, initPrice, growth);
    Engine(simNum, prices, PayoffColumns(kind, strike, prices), disc, fit)
  }

  /** What `american_put` / `american_call` return, errors included. */
  function AmericanPrice(kind: Kind, strike: real, initPrice: real, simNum: int, timesteps: int,
                         growth: Growth, fit: Fit, disc: real): Result<Num>
  {
    if timesteps == 0 then Err(ZeroDivisionError)
    else if simNum < 0 || timesteps < 0 then Err(ShapeError)
    else Ok(NpMean(Flows(EngineOf(kind, strike, initPrice, simNum, timesteps, growth, fit, disc), timesteps + 1)))
  }

  // ---------------------------------------------------------------------------
  // Properties of the reference definition
  // ---------------------------------------------------------------------------

  lemma {:induction false} PathPricePositive(initPrice: real, growth: Growth, i: nat, t: nat)
    requires initPrice > 0.0
    requires forall j, u :: growth(j, u) > 0.0
    ensures PathPrice(initPrice, growth, i, t) > 0.0
  {
    if t > 0 {
      PathPricePositive(initPrice, growth, i, t - 1);
      var p := PathPrice(initPrice, growth, i, t - 1);
      assert p * growth(i, t - 1) > 0.0 by {
        assert growth(i, t - 1) > 0.0;
      }
    }
  }

  /**
   * One step, entry by entry: with no path in the money the entry is untouched;
   * otherwise it is replaced by the path's payoff exactly when the path
   * exercises (payoff strictly positive and strictly above the fitted
   * continuation value), and then discounted once.
   */
  lemma StepEntry(prices: seq<real>, pay: seq<real>, flows: seq<real>, disc: real, fit: Fit, i: nat)
    requires |prices| == |pay| == |flows| && i < |flows|
    ensures !AnyInTheMoney(pay) ==> Step(prices, pay, flows, disc, fit)[i] == flows[i]
    ensures AnyInTheMoney(pay) ==>
              Step(prices, pay, flows, disc, fit)[i] ==
                (if Exercises(prices, pay, flows, disc, fit, i) then pay[i] else flows[i]) * disc
  {
    if AnyInTheMoney(pay) {
      var chosen := Decide(prices, pay, flows, disc, fit);
      assert Step(prices, pay, flows, disc, fit) == Scale(chosen, disc);
    }
  }

  /** A step with no in-the-money path leaves the cash flows exactly as they were, undiscounted. */
  lemma {:induction false} QuietStepUnchanged(e: Engine, t: nat)
    requires Shaped(e) && t < |e.pays|
    requires !Active(e, t)
    ensures Flows(e, t + 1) == Flows(e, t)
  {
  }

  /**
   * In a step with an in-the-money path, an entry becomes the path's payoff at
   * t when the path exercises and keeps its flow otherwise; either way it is
   * then discounted once.
   */
  lemma {:induction false} ActiveStepEntry(e: Engine, t: nat, i: nat)
    requires Shaped(e) && t < |e.pays| && i < e.n
    requires Active(e, t)
    ensures Flows(e, t + 1)[i] ==
              (if ExercisedAt(e, t, i) then StepInput(e, t, Flows(e, t))[i] else Flows(e, t)[i]) * e.disc
  {
    StepEntry(e.prices[t], StepInput(e, t, Flows(e, t)), Flows(e, t), e.disc, e.fit, i);
  }

  /** With non-negative payoffs and a positive discount the cash flows never become negative. */
  lemma {:induction false} FlowsNonNegative(e: Engine, k: nat)
    requires Shaped(e) && k <= |e.pays|
    requires e.disc > 0.0
    requires forall t, i :: 0 <= t < |e.pays| && 0 <= i < e.n ==> e.pays[t][i] >= 0.0
    ensures forall i :: 0 <= i < e.n ==> Flows(e, k)[i] >= 0.0
  {
    if k > 0 {
      FlowsNonNegative(e, k - 1);
      var prev := Flows(e, k - 1);
      var pay := StepInput(e, k - 1, prev);
      forall i | 0 <= i < e.n
        ensures Flows(e, k)[i] >= 0.0
      {
        StepEntry(e.prices[k - 1], pay, prev, e.disc, e.fit, i);
      }
    }
  }

  /**
   * A path never exercised during steps 0 .. k - 1 still holds its terminal
   * payoff, discounted once for each step that had an in-the-money path.
   */
  lemma {:induction false} UnexercisedPathDiscount(e: Engine, k: nat, i: nat)
    requires Shaped(e) && k <= |e.pays| && i < e.n
    requires forall t :: 0 <= t < k ==> !ExercisedAt(e, t, i)
    ensures Flows(e, k)[i] == e.pays[|e.pays| - 1][i] * Pow(e.disc, ActiveSteps(e, k))
  {
    if k > 0 {
      UnexercisedPathDiscount(e, k - 1, i);
      var prev := Flows(e, k - 1);
      StepEntry(e.prices[k - 1], StepInput(e, k - 1, prev), prev, e.disc, e.fit, i);
      assert !ExercisedAt(e, k - 1, i);
      if Active(e, k - 1) {
        var a := e.pays[|e.pays| - 1][i];
        var p := Pow(e.disc, ActiveSteps(e, k - 1));
        assert (a * p) * e.disc == a * (p * e.disc);
      }
    }
  }

  /**
   * The last iteration reads the flow vector itself as its payoff column, so an
   * exercise there rewrites an entry with its own value: the step only discounts.
   */
  lemma {:induction false} TerminalStepOnlyDiscounts(e: Engine)
    requires Shaped(e)
    ensures var last := |e.pays| - 1;
            Flows(e, last + 1) == if Active(e, last) then Scale(Flows(e, last), e.disc) else Flows(e, last)
  {
    var last := |e.pays| - 1;
    var flows := Flows(e, last);
    assert StepInput(e, last, flows) == flows;
    assert Decide(e.prices[last], flows, flows, e.disc, e.fit) == flows;
  }

  /** The price is non-negative whenever it is a number. */
  lemma AmericanPriceNonNegative(kind: Kind, strike: real, initPrice: real, simNum: int, timesteps: int,
                                 growth: Growth, fit: Fit, disc: real)
    requires disc > 0.0
    ensures var r := AmericanPrice(kind, strike, initPrice, simNum, timesteps, growth, fit, disc);
            r.Ok? && r.value.Real? ==> r.value.x >= 0.0
  {
    if timesteps > 0 && simNum > 0 {
      var e := EngineOf(kind, strike, initPrice, simNum, timesteps, growth, fit, disc);
      FlowsNonNegative(e, timesteps + 1);
      MeanNonNegative(Flows(e, timesteps + 1));
    }
  }

  // ---------------------------------------------------------------------------
  // The imperative engine over numpy-like matrices
  // ---------------------------------------------------------------------------

  /** `a[:, c]`. */
  function Column(a: array2<real>, c: nat): (r: seq<real>)
    reads a
    requires c < a.Length1
    ensures |r| == a.Length0
  {
    seq(a.Length0, i requires 0 <= i < a.Length0 reads a => a[i, c])
  }

  /** `timestep_GBM`: a zero matrix whose column 0 is set to the initial price, then filled column by column. */
  method TimestepGBM(simNum: int, timesteps: int, initPrice: real, growth: Growth) returns (r: Result<array2<real>>)
    ensures timesteps == 0 ==> r == Err(ZeroDivisionError)
    ensures timesteps != 0 && (simNum < 0 || timesteps < 0) ==> r == Err(ShapeError)
    ensures simNum >= 0 && timesteps > 0 ==>
              r.Ok? && fresh(r.value) &&
              r.value.Length0 == simNum && r.value.Length1 == timesteps + 1 &&
              forall i, t :: 0 <= i < simNum && 0 <= t <= timesteps ==>
                r.value[i, t] == PathPrice(initPrice, growth, i, t)
  {
    if timesteps == 0 {
      return Err(ZeroDivisionError);
    }
    if simNum < 0 || timesteps < 0 {
      return Err(ShapeError);
    }
    // `np.zeros`: the initial contents do not matter, every cell is overwritten below.
    var paths := new real[simNum, timesteps + 1];
    FirstColumn(paths, initPrice);
    FillColumns(paths, initPrice, growth);
    return Ok(paths);
  }

  /** The `for t in range(1, timesteps + 1)` loop: column t from column t - 1 and the step's factors. */
  method FillColumns(paths: array2<real>, initPrice: real, growth: Growth)
    requires 0 < paths.Length1
    requires forall i :: 0 <= i < paths.Length0 ==> paths[i, 0] == initPrice
    modifies paths
    ensures forall i, t :: 0 <= i < paths.Length0 && 0 <= t < paths.Length1 ==>
              paths[i, t] == PathPrice(initPrice, growth, i, t)
  {
    for t := 1 to paths.Length1
      invariant forall i, c :: 0 <= i < paths.Length0 && 0 <= c < t ==> paths[i, c] == PathPrice(initPrice, growth, i, c)
    {
      label before:
      FillColumn(paths, t, growth);
      forall i, c | 0 <= i < paths.Length0 && 0 <= c <= t
        ensures paths[i, c] == PathPrice(initPrice, growth, i, c)
      {
        if c == t {
          assert paths[i, t] == old@before(paths[i, t - 1]) * growth(i, t - 1);
        } else {
          assert paths[i, c] == old@before(paths[i, c]);
        }
      }
    }
  }

  /** `paths[:, 0] = init_price`. */
  method FirstColumn(paths: array2<real>, initPrice: real)
    requires 0 < paths.Length1
    modifies paths
    ensures forall i :: 0 <= i < paths.Length0 ==> paths[i, 0] == initPrice
    ensures forall i, c :: 0 <= i < paths.Length0 && 0 < c < paths.Length1 ==> paths[i, c] == old(paths[i, c])
  {
    forall i | 0 <= i < paths.Length0 {
      paths[i, 0] := initPrice;
    }
  }

  /** `paths[:, t] = paths[:, t - 1] * factors`: column t from column t - 1, the other columns untouched. */
  method FillColumn(paths: array2<real>, t: nat, growth: Growth)
    requires 0 < t < paths.Length1
    modifies paths
    ensures forall i :: 0 <= i < paths.Length0 ==> paths[i, t] == old(paths[i, t - 1]) * growth(i, t - 1)
    ensures forall i, c :: 0 <= i < paths.Length0 && 0 <= c < paths.Length1 && c != t ==> paths[i, c] == old(paths[i, c])
  {
    forall i | 0 <= i < paths.Length0 {
      paths[i, t] := paths[i, t - 1] * growth(i, t - 1);
    }
  }

  /** `np.maximum(strike - paths, 0)` or `np.maximum(paths - strike, 0)`: a new matrix. */
  method PayoffMatrix(kind: Kind, strike: real, paths: array2<real>) returns (payoffs: array2<real>)
    ensures fresh(payoffs)
    ensures payoffs.Length0 == paths.Length0 && payoffs.Length1 == paths.Length1
    ensures forall i, t :: 0 <= i < paths.Length0 && 0 <= t < paths.Length1 ==>
              payoffs[i, t] == Payoff(kind, strike, paths[i, t])
  {
    payoffs := new real[paths.Length0, paths.Length1];
    forall i, t | 0 <= i < paths.Length0 && 0 <= t < paths.Length1 {
      payoffs[i, t] := Payoff(kind, strike, paths[i, t]);
    }
  }

  /** `a[rows, c] = values` for distinct rows. */
  method AssignRows(a: array2<real>, c: nat, rows: seq<nat>, values: seq<real>)
    requires c < a.Length1
    requires |rows| == |values|
    requires Increasing(rows)
    requires forall j :: 0 <= j < |rows| ==> rows[j] < a.Length0
    modifies a
    ensures forall j :: 0 <= j < |rows| ==> a[rows[j], c] == values[j]
    ensures forall i, t :: 0 <= i < a.Length0 && 0 <= t < a.Length1 && (t != c || i !in rows) ==>
              a[i, t] == old(a[i, t])
  {
    forall j | 0 <= j < |rows| {
      a[rows[j], c] := values[j];
    }
  }

  /** `a[:, c] *= d`. */
  method ScaleColumn(a: array2<real>, c: nat, d: real)
    requires c < a.Length1
    modifies a
    ensures forall i :: 0 <= i < a.Length0 ==> a[i, c] == old(a[i, c]) * d
    ensures forall i, t :: 0 <= i < a.Length0 && 0 <= t < a.Length1 && t != c ==> a[i, t] == old(a[i, t])
  {
    forall i | 0 <= i < a.Length0 {
      a[i, c] := a[i, c] * d;
    }
  }

  /** `np.where(profits)[0]` is empty exactly when no path is in the money. */
  lemma InTheMoneyWhere(pay: seq<real>)
    ensures |Where(Positive(pay))| == 0 <==> !AnyInTheMoney(pay)
  {
    var itm := Where(Positive(pay));
    if AnyInTheMoney(pay) {
      var i :| 0 <= i < |pay| && pay[i] > 0.0;
      assert Positive(pay)[i];
      assert i in itm;
    }
    if |itm| > 0 {
      assert itm[0] < |pay| && Positive(pay)[itm[0]];
    }
  }

  /** Composing two ascending index lists keeps them ascending. */
  lemma SelectIncreasing(outer: seq<nat>, inner: seq<nat>)
    requires Increasing(outer) && Increasing(inner)
    requires forall j :: 0 <= j < |inner| ==> inner[j] < |outer|
    ensures Increasing(Select(outer, inner))
  {
    var r := Select(outer, inner);
    forall j, k | 0 <= j < k < |r|
      ensures r[j] < r[k]
    {
      assert inner[j] < inner[k];
    }
  }

  /**
   * `np.where(profits)[0][put_now]` holds exactly the paths that are in the
   * money and whose payoff exceeds the fitted value at their price.
   */
  lemma UpdateRows(prices: seq<real>, pay: seq<real>, c: Coeffs, i: nat)
    requires |prices| == |pay|
    ensures var itm := Where(Positive(pay));
            var cont := Fitted(c, Select(prices, itm));
            var putNow := Exceeds(Select(pay, itm), cont);
            i in Select(itm, Where(putNow)) <==> i < |pay| && pay[i] > 0.0 && pay[i] > Poly(c, prices[i])
  {
    UpdatedRowExercises(prices, pay, c, i);
    ExercisingRowUpdated(prices, pay, c, i);
  }

  lemma UpdatedRowExercises(prices: seq<real>, pay: seq<real>, c: Coeffs, i: nat)
    requires |prices| == |pay|
    ensures var itm := Where(Positive(pay));
            var putNow := Exceeds(Select(pay, itm), Fitted(c, Select(prices, itm)));
            i in Select(itm, Where(putNow)) ==> i < |pay| && pay[i] > 0.0 && pay[i] > Poly(c, prices[i])
  {
    var itm := Where(Positive(pay));
    var putNow := Exceeds(Select(pay, itm), Fitted(c, Select(prices, itm)));
    var sel := Where(putNow);
    var update := Select(itm, sel);
    if i in update {
      var k :| 0 <= k < |update| && update[k] == i;
      var j := sel[k];
      assert putNow[j];
      assert itm[j] == i;
    }
  }

  lemma ExercisingRowUpdated(prices: seq<real>, pay: seq<real>, c: Coeffs, i: nat)
    requires |prices| == |pay|
    ensures var itm := Where(Positive(pay));
            var putNow := Exceeds(Select(pay, itm), Fitted(c, Select(prices, itm)));
            i < |pay| && pay[i] > 0.0 && pay[i] > Poly(c, prices[i]) ==> i in Select(itm, Where(putNow))
  {
    var itm := Where(Positive(pay));
    var putNow := Exceeds(Select(pay, itm), Fitted(c, Select(prices, itm)));
    if i < |pay| && pay[i] > 0.0 && pay[i] > Poly(c, prices[i]) {
      assert Positive(pay)[i];
      var j :| 0 <= j < |itm| && itm[j] == i;
      assert putNow[j];
      var sel := Where(putNow);
      var k :| 0 <= k < |sel| && sel[k] == j;
      assert Select(itm, sel)[k] == i;
    }
  }

  /**
   * The `for t` loop of `american_put` / `american_call`. `flows` is the last
   * column of `payoffs` (a numpy view), so the loop writes into that column;
   * every other column keeps the payoffs it was built with.
   */
  method Induct(e: Engine, paths: array2<real>, payoffs: array2<real>)
    requires Shaped(e)
    requires paths != payoffs
    requires paths.Length0 == payoffs.Length0 == e.n
    requires paths.Length1 == payoffs.Length1 == |e.pays|
    requires forall i, t :: 0 <= i < e.n && 0 <= t < |e.pays| ==> paths[i, t] == e.prices[t][i]
    requires forall i, t :: 0 <= i < e.n && 0 <= t < |e.pays| ==> payoffs[i, t] == e.pays[t][i]
    modifies payoffs
    ensures Column(payoffs, |e.pays| - 1) == Flows(e, |e.pays|)
    ensures forall i, t :: 0 <= i < e.n && 0 <= t < |e.pays| - 1 ==> payoffs[i, t] == old(payoffs[i, t])
  {
    var last := |e.pays| - 1;
    assert Column(payoffs, last) == e.pays[last];
    for t := 0 to last + 1
      invariant Column(payoffs, last) == Flows(e, t)
      invariant forall i, c :: 0 <= i < e.n && 0 <= c < last ==> payoffs[i, c] == old(payoffs[i, c])
    {
      Iteration(e, t, paths, payoffs);
    }
  }

  /** One pass of the loop body at step t: the flows column becomes `Advance` of what it held. */
  method Iteration(e: Engine, t: nat, paths: array2<real>, payoffs: array2<real>)
    requires Shaped(e) && t < |e.pays|
    requires paths != payoffs
    requires paths.Length0 == payoffs.Length0 == e.n
    requires paths.Length1 == payoffs.Length1 == |e.pays|
    requires forall i, c :: 0 <= i < e.n && 0 <= c < |e.pays| ==> paths[i, c] == e.prices[c][i]
    requires forall i, c :: 0 <= i < e.n && 0 <= c < |e.pays| - 1 ==> payoffs[i, c] == e.pays[c][i]
    modifies payoffs
    ensures Column(payoffs, |e.pays| - 1) == Advance(e, t, old(Column(payoffs, |e.pays| - 1)))
    ensures forall i, c :: 0 <= i < e.n && 0 <= c < |e.pays| - 1 ==> payoffs[i, c] == old(payoffs[i, c])
  {
    var n, last := e.n, |e.pays| - 1;
    var flows := Column(payoffs, last);
    var pay := Column(payoffs, t);
    var prices := Column(paths, t);
    assert prices == e.prices[t];
    assert pay == StepInput(e, t, flows) by {
      if t < last {
        assert pay == e.pays[t];
      }
    }
    var profits := Positive(pay);
    var itm := Where(profits);
    var regressX := Select(prices, itm);
    var regressY := Scale(Select(flows, itm), e.disc);
    InTheMoneyWhere(pay);
    if |regressX| == 0 {
      return;
    }
    var coeffs := e.fit(regressX, regressY);
    ExerciseAndDiscount(payoffs, last, prices, pay, flows, e.disc, e.fit, coeffs);
    ghost var stepped := Scale(Decide(prices, pay, flows, e.disc, e.fit), e.disc);
    assert forall i :: 0 <= i < n ==> Column(payoffs, last)[i] == stepped[i];
  }

  /**
   * The active part of the loop body: the exercising paths take their payoff,
   * then `flows *= disc`. Column c holds `flows`; `coeffs` is what the fit
   * returned for this step.
   */
  method ExerciseAndDiscount(a: array2<real>, c: nat, prices: seq<real>, pay: seq<real>, flows: seq<real>,
                             disc: real, fit: Fit, coeffs: Coeffs)
    requires c < a.Length1
    requires |prices| == |pay| == |flows| == a.Length0
    requires forall i :: 0 <= i < a.Length0 ==> a[i, c] == flows[i]
    requires coeffs == Regression(prices, pay, flows, disc, fit)
    modifies a
    ensures forall i :: 0 <= i < a.Length0 ==> a[i, c] == Decide(prices, pay, flows, disc, fit)[i] * disc
    ensures forall i, t :: 0 <= i < a.Length0 && 0 <= t < a.Length1 && t != c ==> a[i, t] == old(a[i, t])
  {
    OverwriteExercised(a, c, prices, pay, flows, coeffs);
    ghost var chosen := Decide(prices, pay, flows, disc, fit);
    assert forall i :: 0 <= i < a.Length0 ==> a[i, c] == chosen[i];
    ScaleColumn(a, c, disc);
  }

  /**
   * The exercise update of one step: the fitted polynomial is evaluated at
   * the price of each in-the-money path, the paths whose payoff beats that
   * estimate are picked out by their row numbers, and column c (holding
   * `flows`) takes the current payoff on exactly those rows.
   */
  method OverwriteExercised(a: array2<real>, c: nat, prices: seq<real>, pay: seq<real>, flows: seq<real>, coeffs: Coeffs)
    requires c < a.Length1
    requires |prices| == |pay| == |flows| == a.Length0
    requires forall i :: 0 <= i < a.Length0 ==> a[i, c] == flows[i]
    modifies a
    ensures forall i :: 0 <= i < a.Length0 ==>
              a[i, c] == if pay[i] > 0.0 && pay[i] > Poly(coeffs, prices[i]) then pay[i] else flows[i]
    ensures forall i, t :: 0 <= i < a.Length0 && 0 <= t < a.Length1 && t != c ==> a[i, t] == old(a[i, t])
  {
    var itm := Where(Positive(pay));
    var cont := Fitted(coeffs, Select(prices, itm));
    var putNow := Exceeds(Select(pay, itm), cont);
    var update := Select(itm, Where(putNow));
    var values := Select(pay, update);
    SelectIncreasing(itm, Where(putNow));
    AssignRows(a, c, update, values);
    forall i | 0 <= i < a.Length0
      ensures a[i, c] == if pay[i] > 0.0 && pay[i] > Poly(coeffs, prices[i]) then pay[i] else flows[i]
    {
      UpdateRows(prices, pay, coeffs, i);
      if i in update {
        var k :| 0 <= k < |update| && update[k] == i;
        assert a[i, c] == values[k];
      }
    }
  }

  /** `american_put` / `american_call` on a given kind: simulate, build payoffs, run the loop, average the flows. */
  method Price(kind: Kind, strike: real, initPrice: real, simNum: int, timesteps: int,
               growth: Growth, fit: Fit, disc: real) returns (r: Result<Num>)
    ensures r == AmericanPrice(kind, strike, initPrice, simNum, timesteps, growth, fit, disc)
  {
    var sim := TimestepGBM(simNum, timesteps, initPrice, growth);
    if sim.Err? {
      return Err(sim.error);
    }
    var paths := sim.value;
    var payoffs := PayoffMatrix(kind, strike, paths);
    var e := EngineOf(kind, strike, initPrice, simNum, timesteps, growth, fit, disc);
    Induct(e, paths, payoffs);
    return Ok(NpMean(Column(payoffs, timesteps)));
  }

  method AmericanPut(strike: real, initPrice: real, simNum: int, timesteps: int,
                     growth: Growth, fit: Fit, disc: real) returns (r: Result<Num>)
    ensures r == AmericanPrice(Put, strike, initPrice, simNum, timesteps, growth, fit, disc)
  {
    r := Price(Put, strike, initPrice, simNum, timesteps, growth, fit, disc);
  }

  method AmericanCall(strike: real, initPrice: real, simNum: int, timesteps: int,
                      growth: Growth, fit: Fit, disc: real) returns (r: Result<Num>)
    ensures r == AmericanPrice(Call, strike, initPrice, simNum, timesteps, growth, fit, disc)
  {
    r := Price(Call, strike, initPrice, simNum, timesteps, growth, fit, disc);
  }

  /**
   * `AmericanOptions(...)`: the base constructor validates the five
   * parameters, then `timesteps` is stored and added to the table as
   * 'Timesteps', after validation, so it is never checked.
   */
  method NewAmerican(strike: Options.Value, vol: Options.Value, rf: Options.Value, time: Options.Value,
                     init: Options.Value, timesteps: Options.Value := Options.Number(1.0))
    returns (r: Result<Options.Options>, printed: seq<string>)
    ensures var report := Options.Validation(Options.Table(strike, vol, rf, time, init));
            printed == Options.Messages(report.warnings) &&
            (r.Err? <==> report.error.Some?) &&
            (r.Err? ==> r.error == TypeError)
    ensures r.Ok? ==>
              fresh(r.value) && r.value.timesteps == Some(timesteps) &&
              r.value.parameters == Options.Table(strike, vol, rf, time, init) + [(Options.TimestepsKey, timesteps)] &&
              r.value.strikePrice == strike && r.value.vol == vol && r.value.rfRate == rf &&
              r.value.time == time && r.value.initPrice == init
  {
    r, printed := Options.New(strike, vol, rf, time, init);
    if r.Ok? {
      var o := r.value;
      o.SetTimesteps(timesteps);
      Options.TableKeys(strike, vol, rf, time, init);
      Options.SetEntryAppends(Options.Table(strike, vol, rf, time, init), Options.TimestepsKey, timesteps);
    }
  }
}
