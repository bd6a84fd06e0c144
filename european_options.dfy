/**
 * The European pricer of simulations/european_options.py: a list of terminal
 * prices, one per normal draw, a list of max-with-zero payoffs, and their
 * discounted average.
 *
 * The draws are the input `draws(i)` (the i-th call to the normal generator),
 * the analytic growth factor `e ** (time * (rf - vol^2 / 2) + vol * sqrt(time) * z)`
 * is the input `factor(z)`, and the discount `e ** (-rf * time)` is the input `disc`.
 */
module EuropeanOptions {
  import opened Basics
  import opened AmericanOptions

  /** The terminal prices `GBM` returns for `simNum` draws (none when simNum <= 0). */
  function TerminalPrices(initPrice: real, simNum: int, draws: nat -> real, factor: real -> real): (r: seq<real>)
    ensures |r| == if simNum > 0 then simNum else 0
  {
    if simNum <= 0 then [] else seq(simNum, i requires 0 <= i < simNum => initPrice * factor(draws(i)))
  }

  /** One payoff per terminal price. */
  function PayoffList(kind: Kind, strike: real, prices: seq<real>): (r: seq<real>)
    ensures |r| == |prices|
    ensures forall i :: 0 <= i < |r| ==> r[i] >= 0.0
  {
    seq(|prices|, i requires 0 <= i < |prices| => Payoff(kind, strike, prices[i]))
  }

  /** What `european_call` / `european_put` return: the discount times `sum(payoffs) / len(payoffs)`. */
  function EuropeanPrice(kind: Kind, strike: real, initPrice: real, simNum: int,
                         draws: nat -> real, factor: real -> real, disc: real): Result<real>
  {
    var payoffs := PayoffList(kind, strike, TerminalPrices(initPrice, simNum, draws, factor));
    if |payoffs| == 0 then Err(ZeroDivisionError) else Ok(disc * Mean(payoffs))
  }

  /** Every terminal price is the initial price times a positive factor, hence positive when the initial price is. */
  lemma TerminalPricesPositive(initPrice: real, simNum: int, draws: nat -> real, factor: real -> real)
    requires initPrice > 0.0
    requires forall z :: factor(z) > 0.0
    ensures forall i :: 0 <= i < |TerminalPrices(initPrice, simNum, draws, factor)| ==>
              TerminalPrices(initPrice, simNum, draws, factor)[i] > 0.0
  {
    var st := TerminalPrices(initPrice, simNum, draws, factor);
    forall i | 0 <= i < |st|
      ensures st[i] > 0.0
    {
      var z := draws(i);
      var f := factor(z);
      assert f > 0.0;
      assert st[i] == initPrice * f;
    }
  }

  /** With a non-negative discount the price is non-negative. */
  lemma EuropeanPriceNonNegative(kind: Kind, strike: real, initPrice: real, simNum: int,
                                 draws: nat -> real, factor: real -> real, disc: real)
    requires disc >= 0.0
    ensures var r := EuropeanPrice(kind, strike, initPrice, simNum, draws, factor, disc);
            r.Ok? ==> r.value >= 0.0
  {
    var payoffs := PayoffList(kind, strike, TerminalPrices(initPrice, simNum, draws, factor));
    if |payoffs| > 0 {
      MeanNonNegative(payoffs);
    }
  }

  /** Sum division fails exactly when no path is simulated. */
  lemma EuropeanPriceFails(kind: Kind, strike: real, initPrice: real, simNum: int,
                           draws: nat -> real, factor: real -> real, disc: real)
    ensures EuropeanPrice(kind, strike, initPrice, simNum, draws, factor, disc).Err? <==> simNum <= 0
  {
  }

  /**
   * Put-call parity on the same draws: the call price minus the put price is
   * the discount times the mean terminal price minus the strike.
   */
  lemma EuropeanParity(strike: real, initPrice: real, simNum: int,
                       draws: nat -> real, factor: real -> real, disc: real)
    requires simNum > 0
    ensures var st := TerminalPrices(initPrice, simNum, draws, factor);
            EuropeanPrice(Call, strike, initPrice, simNum, draws, factor, disc).value -
            EuropeanPrice(Put, strike, initPrice, simNum, draws, factor, disc).value ==
            disc * (Mean(st) - strike)
  {
    var st := TerminalPrices(initPrice, simNum, draws, factor);
    var calls := PayoffList(Call, strike, st);
    var puts := PayoffList(Put, strike, st);
    MeanGap(st, calls, puts, strike);
    var c, p := Mean(calls), Mean(puts);
    assert disc * c - disc * p == disc * (c - p);
  }

  /** Elementwise payoff gaps `st[i] - strike` average to the mean price minus the strike. */
  lemma MeanGap(st: seq<real>, calls: seq<real>, puts: seq<real>, strike: real)
    requires |st| > 0 && |calls| == |puts| == |st|
    requires forall i :: 0 <= i < |st| ==> calls[i] - puts[i] == st[i] - strike
    ensures Mean(calls) - Mean(puts) == Mean(st) - strike
  {
    var gaps := seq(|st|, i requires 0 <= i < |st| => st[i] - strike);
    var strikes := seq(|st|, i requires 0 <= i < |st| => strike);
    SumDifference(calls, puts, gaps);
    SumDifference(st, strikes, gaps);
    SumConstant(strikes, strike);
    QuotientGap(Sum(calls), Sum(puts), Sum(st), |st| as real, strike);
  }

  lemma QuotientGap(a: real, b: real, c: real, n: real, strike: real)
    requires n > 0.0 && a - b == c - n * strike
    ensures a / n - b / n == c / n - strike
  {
    calc {
      a / n - b / n;
      (a - b) / n;
      (c - n * strike) / n;
      c / n - strike;
    }
  }

  /** The `european_options` object: its six constructor arguments, stored as given. */
  class EuropeanOptions {
    var strikePrice: real
    var vol: real
    var rfRate: real
    var time: real
    var initPrice: real
    var timeSteps: int

    constructor(strikePrice: real, vol: real, rfRate: real, time: real, initPrice: real, timeSteps: int := 1)
      ensures this.strikePrice == strikePrice && this.vol == vol && this.rfRate == rfRate
      ensures this.time == time && this.initPrice == initPrice && this.timeSteps == timeSteps
    {
      this.strikePrice := strikePrice;
      this.vol := vol;
      this.rfRate := rfRate;
      this.time := time;
      this.initPrice := initPrice;
      this.timeSteps := timeSteps;
    }

    /** `GBM`: one draw per path into `Z`, then one terminal price per draw into `ST`, in draw order. */
    method GBM(simNum: int, draws: nat -> real, factor: real -> real) returns (st: seq<real>)
      ensures st == TerminalPrices(initPrice, simNum, draws, factor)
    {
      var z: seq<real> := [];
      var n := if simNum > 0 then simNum else 0;
      for i := 0 to n
        invariant |z| == i
        invariant forall j :: 0 <= j < i ==> z[j] == draws(j)
      {
        z := z + [draws(i)];
      }
      st := [];
      for j := 0 to |z|
        invariant |st| == j
        invariant forall k :: 0 <= k < j ==> st[k] == initPrice * factor(z[k])
      {
        st := st + [initPrice * factor(z[j])];
      }
      ghost var expected := TerminalPrices(initPrice, simNum, draws, factor);
      assert forall k :: 0 <= k < n ==> st[k] == expected[k];
    }

    /** The `for end_price in ST` loop: one payoff per terminal price, in order. */
    method Payoffs(kind: Kind, st: seq<real>) returns (payoffs: seq<real>)
      ensures payoffs == PayoffList(kind, strikePrice, st)
    {
      payoffs := [];
      for j := 0 to |st|
        invariant |payoffs| == j
        invariant forall k :: 0 <= k < j ==> payoffs[k] == Payoff(kind, strikePrice, st[k])
      {
        payoffs := payoffs + [Payoff(kind, strikePrice, st[j])];
      }
    }

    /** `european_call` / `european_put` on a given kind; `timeSteps` plays no part. */
    method Price(kind: Kind, simNum: int, draws: nat -> real, factor: real -> real, disc: real) returns (r: Result<real>)
      ensures r == EuropeanPrice(kind, strikePrice, initPrice, simNum, draws, factor, disc)
    {
      var st := GBM(simNum, draws, factor);
      var payoffs := Payoffs(kind, st);
      if |payoffs| == 0 {
        return Err(ZeroDivisionError);
      }
      var average := Sum(payoffs) / (|payoffs| as real);
      r := Ok(disc * average);
      ghost var expected := EuropeanPrice(kind, strikePrice, initPrice, simNum, draws, factor, disc);
      assert expected == Ok(expected.value);
      assert expected.value == disc * Mean(payoffs);
      assert average == Mean(payoffs);
      assert r.value == expected.value;
    }

    method EuropeanCall(simNum: int, draws: nat -> real, factor: real -> real, disc: real) returns (r: Result<real>)
      ensures r == EuropeanPrice(Call, strikePrice, initPrice, simNum, draws, factor, disc)
    {
      r := Price(Call, simNum, draws, factor, disc);
    }

    method EuropeanPut(simNum: int, draws: nat -> real, factor: real -> real, disc: real) returns (r: Result<real>)
      ensures r == EuropeanPrice(Put, strikePrice, initPrice, simNum, draws, factor, disc)
    {
      r := Price(Put, simNum, draws, factor, disc);
    }
  }
}
