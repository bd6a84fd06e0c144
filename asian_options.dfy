/**
 * The Asian pricer of simulations/asian_options.py: the path matrix of the
 * American pricer is averaged row by row, and the price is the whole-horizon
 * discount times the mean of the max-with-zero payoffs on those averages.
 *
 * The whole-horizon discount `exp(-rf * time)` is the input `disc`; the path
 * matrix comes from `AmericanOptions.TimestepGBM` with its growth-factor input.
 */
module AsianOptions {
  import opened Basics
  import opened AmericanOptions
  import Options

  /** A 2-d array given as its rows, every one of `cols` entries (`np.size(array, 1) == cols`). */
  predicate Rectangular(rows: seq<seq<real>>, cols: nat)
  {
    forall i :: 0 <= i < |rows| ==> |rows[i]| == cols
  }

  /**
   * `arithmetic_mean`: `np.sum(array, axis = 1) / np.size(array, 1)`. With no
   * columns every row sum is 0 and the division gives NaN, so each entry is
   * numpy's mean of its row.
   */
  function ArithmeticMean(rows: seq<seq<real>>, cols: nat): (r: seq<Num>)
    requires Rectangular(rows, cols)
    ensures |r| == |rows|
    ensures forall i :: 0 <= i < |rows| ==> r[i] == NpMean(rows[i])
  {
    seq(|rows|, i requires 0 <= i < |rows| => if cols == 0 then NaN else Real(Sum(rows[i]) / (cols as real)))
  }

  function SeqMin(s: seq<real>): (r: real)
    requires |s| > 0
    ensures forall k :: 0 <= k < |s| ==> r <= s[k]
    ensures exists k :: 0 <= k < |s| && r == s[k]
  {
    if |s| == 1 then s[0]
    else
      var m := SeqMin(s[..|s| - 1]);
      if s[|s| - 1] < m then s[|s| - 1] else m
  }

  function SeqMax(s: seq<real>): (r: real)
    requires |s| > 0
    ensures forall k :: 0 <= k < |s| ==> s[k] <= r
    ensures exists k :: 0 <= k < |s| && r == s[k]
  {
    if |s| == 1 then s[0]
    else
      var m := SeqMax(s[..|s| - 1]);
      if s[|s| - 1] > m then s[|s| - 1] else m
  }

  /** Each row mean lies between the smallest and the largest entry of its row. */
  lemma RowMeanBetweenMinMax(rows: seq<seq<real>>, cols: nat, i: nat)
    requires Rectangular(rows, cols) && cols > 0 && i < |rows|
    ensures ArithmeticMean(rows, cols)[i].Real?
    ensures SeqMin(rows[i]) <= ArithmeticMean(rows, cols)[i].x <= SeqMax(rows[i])
  {
    MeanBounds(rows[i], SeqMin(rows[i]), SeqMax(rows[i]));
  }

  /** A constant row averages to that constant. */
  lemma ConstantRowMean(rows: seq<seq<real>>, cols: nat, i: nat, c: real)
    requires Rectangular(rows, cols) && cols > 0 && i < |rows|
    requires forall k :: 0 <= k < cols ==> rows[i][k] == c
    ensures ArithmeticMean(rows, cols)[i] == Real(c)
  {
    SumConstant(rows[i], c);
  }

  /** The real values of a sequence with no NaN in it. */
  function Reals(ns: seq<Num>): (r: seq<real>)
    requires forall i :: 0 <= i < |ns| ==> ns[i].Real?
    ensures |r| == |ns|
    ensures forall i :: 0 <= i < |ns| ==> ns[i] == Real(r[i])
  {
    seq(|ns|, i requires 0 <= i < |ns| => ns[i].x)
  }

  /**
   * `np.maximum(means - strike, 0)` for a call and `np.maximum(strike - means, 0)`
   * for a put: the larger of the intrinsic value and zero.
   */
  function Payoffs(kind: Kind, strike: real, means: seq<real>): (r: seq<real>)
    ensures |r| == |means|
    ensures forall i :: 0 <= i < |means| ==>
              r[i] >= 0.0 && r[i] >= Intrinsic(kind, strike, means[i]) &&
              (r[i] == 0.0 || r[i] == Intrinsic(kind, strike, means[i]))
  {
    seq(|means|, i requires 0 <= i < |means| => Payoff(kind, strike, means[i]))
  }

  /** Per path, the call payoff minus the put payoff is the average minus the strike. */
  lemma CallMinusPut(strike: real, means: seq<real>)
    ensures forall i :: 0 <= i < |means| ==>
              Payoffs(Call, strike, means)[i] - Payoffs(Put, strike, means)[i] == means[i] - strike
  {
  }

  /** `disc * x` on a numpy float: NaN stays NaN. */
  function Discounted(disc: real, x: Num): (r: Num)
    ensures r.NaN? <==> x.NaN?
    ensures x.Real? ==> r.x == disc * x.x
    ensures disc >= 0.0 && x.Real? && x.x >= 0.0 ==> r.Real? && r.x >= 0.0
  {
    match x
    case NaN => NaN
    case Real(v) => Real(disc * v)
  }

  /** The path matrix of `timestep_GBM` as rows: `PriceColumns` transposed, row i holding path i at steps 0 .. timesteps. */
  function PathRows(simNum: nat, timesteps: nat, initPrice: real, growth: Growth): (r: seq<seq<real>>)
    ensures |r| == simNum && Rectangular(r, timesteps + 1)
  {
    var cols := PriceColumns(simNum, timesteps, initPrice, growth);
    seq(simNum, i requires 0 <= i < simNum =>
      seq(timesteps + 1, t requires 0 <= t <= timesteps => cols[t][i]))
  }

  /** What `asian_call` / `asian_put` with `arithmetic_mean` return, errors included. */
  function AsianPrice(kind: Kind, strike: real, initPrice: real, simNum: int, timesteps: int,
                      growth: Growth, disc: real): Result<Num>
  {
    if timesteps == 0 then Err(ZeroDivisionError)
    else if simNum < 0 || timesteps < 0 then Err(ShapeError)
    else
      var means := ArithmeticMean(PathRows(simNum, timesteps, initPrice, growth), timesteps + 1);
      Ok(Discounted(disc, NpMean(Payoffs(kind, strike, Reals(means)))))
  }

  /** With a non-negative discount the price is non-negative whenever it is a number. */
  lemma AsianPriceNonNegative(kind: Kind, strike: real, initPrice: real, simNum: int, timesteps: int,
                              growth: Growth, disc: real)
    requires disc >= 0.0
    ensures var r := AsianPrice(kind, strike, initPrice, simNum, timesteps, growth, disc);
            r.Ok? && r.value.Real? ==> r.value.x >= 0.0
  {
    if timesteps > 0 && simNum > 0 {
      var means := ArithmeticMean(PathRows(simNum, timesteps, initPrice, growth), timesteps + 1);
      var pay := Payoffs(kind, strike, Reals(means));
      MeanNonNegative(pay);
    }
  }

  /** The price is NaN exactly when no path is simulated (numpy's mean of an empty array). */
  lemma AsianPriceNaN(kind: Kind, strike: real, initPrice: real, simNum: int, timesteps: int,
                      growth: Growth, disc: real)
    requires timesteps > 0 && simNum >= 0
    ensures var r := AsianPrice(kind, strike, initPrice, simNum, timesteps, growth, disc);
            r.Ok? && (r.value.NaN? <==> simNum == 0)
  {
  }

  /** The rows of a matrix. */
  function RowsOf(a: array2<real>): (r: seq<seq<real>>)
    reads a
    ensures |r| == a.Length0 && Rectangular(r, a.Length1)
  {
    seq(a.Length0, i requires 0 <= i < a.Length0 reads a =>
      seq(a.Length1, t requires 0 <= t < a.Length1 reads a => a[i, t]))
  }

  /** `asian_call` / `asian_put` with `arithmetic_mean` on a given kind. */
  method Price(kind: Kind, strike: real, initPrice: real, simNum: int, timesteps: int,
               growth: Growth, disc: real) returns (r: Result<Num>)
    ensures r == AsianPrice(kind, strike, initPrice, simNum, timesteps, growth, disc)
  {
    var sim := TimestepGBM(simNum, timesteps, initPrice, growth);
    if sim.Err? {
      return Err(sim.error);
    }
    var paths := sim.value;
    var rows := RowsOf(paths);
    ghost var expected := PathRows(simNum, timesteps, initPrice, growth);
    forall i | 0 <= i < simNum
      ensures rows[i] == expected[i]
    {
      assert forall t :: 0 <= t <= timesteps ==> rows[i][t] == expected[i][t];
    }
    assert rows == expected;
    var means := ArithmeticMean(rows, paths.Length1);
    r := Ok(Discounted(disc, NpMean(Payoffs(kind, strike, Reals(means)))));
  }

  method AsianCall(strike: real, initPrice: real, simNum: int, timesteps: int,
                   growth: Growth, disc: real) returns (r: Result<Num>)
    ensures r == AsianPrice(Call, strike, initPrice, simNum, timesteps, growth, disc)
  {
    r := Price(Call, strike, initPrice, simNum, timesteps, growth, disc);
  }

  method AsianPut(strike: real, initPrice: real, simNum: int, timesteps: int,
                  growth: Growth, disc: real) returns (r: Result<Num>)
    ensures r == AsianPrice(Put, strike, initPrice, simNum, timesteps, growth, disc)
  {
    r := Price(Put, strike, initPrice, simNum, timesteps, growth, disc);
  }

  /**
   * `AsianOptions(...)`: the American constructor runs with its default
   * `timesteps` of 1, then `timesteps` and its table entry are overwritten in
   * place with the caller's value. The default strike of 0 is validated like
   * any other.
   */
  method NewAsian(vol: Options.Value, rf: Options.Value, time: Options.Value, init: Options.Value,
                  timesteps: Options.Value := Options.Number(1.0), strike: Options.Value := Options.Number(0.0))
    returns (r: Result<Options.Options>, printed: seq<string>)
    ensures var report := Options.Validation(Options.Table(strike, vol, rf, time, init));
            printed == Options.Messages(report.warnings) &&
            (r.Err? <==> report.error.Some?) &&
            (r.Err? ==> r.error == TypeError)
    ensures r.Ok? ==>
              fresh(r.value) && r.value.timesteps == Some(timesteps) &&
              r.value.parameters == Options.Table(strike, vol, rf, time, init) + [(Options.TimestepsKey, timesteps)] &&
              r.value.strikePrice == strike && r.value.vol == vol && r.value.rfRate == rf &&
              r.value.time == time && r.value.initPrice == init
  {
    r, printed := NewAmerican(strike, vol, rf, time, init);
    if r.Ok? {
      var o := r.value;
      ghost var table := Options.Table(strike, vol, rf, time, init);
      Options.TableKeys(strike, vol, rf, time, init);
      Options.SetEntryAppends(table, Options.TimestepsKey, Options.Number(1.0));
      o.SetTimesteps(timesteps);
      Options.SetEntryTwice(table, Options.TimestepsKey, Options.Number(1.0), timesteps);
      Options.SetEntryAppends(table, Options.TimestepsKey, timesteps);
    }
  }

  /**
   * With the default strike of 0 and positive volatility, time and initial
   * price, the construction prints exactly the strike's sign warning.
   */
  lemma DefaultStrikeWarns(vol: real, rf: real, time: real, init: real)
    requires vol > 0.0 && time > 0.0 && init > 0.0
    ensures var table := Options.Table(Options.Number(0.0), Options.Number(vol), Options.Number(rf),
                                       Options.Number(time), Options.Number(init));
            Options.Messages(Options.Validation(table).warnings) == ["Strike price is less than 0."]
  {
    Options.NumericTable(0.0, vol, rf, time, init);
    assert Options.Message(Options.LessThanZero(Options.StrikeKey)) == "Strike price is less than 0.";
  }
}
