/**
 Cost arithmetic and the stop boundary (governor.py), over exact reals.
 */
module Governor {
  import opened Options

  // `input` is the total prompt count; the cache counts are parts of it.
  datatype Usage = Usage(input: nat, output: nat, cacheRead: nat, cacheWrite: nat)

  // USD per million tokens; an absent cache rate resolves to the input rate.
  datatype Prices = Prices(input: real, output: real, cacheRead: Option<real>, cacheWrite: Option<real>)

  datatype StopReason = Budget | TMax

  predicate Consistent(u: Usage) {
    u.cacheRead + u.cacheWrite <= u.input
  }

  predicate NonNegative(p: Prices) {
    && p.input >= 0.0 && p.output >= 0.0
    && (p.cacheRead.Some? ==> p.cacheRead.value >= 0.0)
    && (p.cacheWrite.Some? ==> p.cacheWrite.value >= 0.0)
  }

  function Rate(rate: Option<real>, fallback: real): real {
    if rate.Some? then rate.value else fallback
  }

  function CostUsd(u: Usage, p: Prices): real {
    var uncached := u.input - u.cacheRead - u.cacheWrite;
    ( uncached as real * p.input
      + u.cacheRead as real * Rate(p.cacheRead, p.input)
      + u.cacheWrite as real * Rate(p.cacheWrite, p.input)
      + u.output as real * p.output) / 1_000_000.0
  }

  // A consistent usage never earns money, at any non-negative price table.
  lemma CostIsNonNegative(u: Usage, p: Prices)
    requires Consistent(u) && NonNegative(p)
    ensures CostUsd(u, p) >= 0.0
  {
    Scaled((u.input - u.cacheRead - u.cacheWrite) as real, p.input);
    Scaled(u.cacheRead as real, Rate(p.cacheRead, p.input));
    Scaled(u.cacheWrite as real, Rate(p.cacheWrite, p.input));
    Scaled(u.output as real, p.output);
  }

  // Tokens that no cache served, or that a cache serves at the price of the input, cost what
  // the plain formula says.
  lemma CostWithoutCaching(u: Usage, p: Prices)
    requires u.cacheRead == 0 || Rate(p.cacheRead, p.input) == p.input
    requires u.cacheWrite == 0 || Rate(p.cacheWrite, p.input) == p.input
    ensures CostUsd(u, p) == (u.input as real * p.input + u.output as real * p.output) / 1_000_000.0
  {
    var read, written := u.cacheRead as real, u.cacheWrite as real;
    assert read * Rate(p.cacheRead, p.input) == read * p.input;
    assert written * Rate(p.cacheWrite, p.input) == written * p.input;
    assert (u.input as real - read - written) * p.input
        == u.input as real * p.input - read * p.input - written * p.input;
  }

  // One token more of each kind costs its price; an absent cache rate is the input rate.  A
  // token that a cache reads or writes is one of the prompt already.
  ghost predicate PricesOneMore(cost: Usage -> real, p: Prices, u: Usage) {
    && cost(u.(output := u.output + 1)) == cost(u) + p.output / 1_000_000.0
    && cost(u.(input := u.input + 1)) == cost(u) + p.input / 1_000_000.0
    && cost(u.(cacheRead := u.cacheRead + 1))
       == cost(u) + ((if p.cacheRead.Some? then p.cacheRead.value else p.input) - p.input) / 1_000_000.0
    && cost(u.(cacheWrite := u.cacheWrite + 1))
       == cost(u) + ((if p.cacheWrite.Some? then p.cacheWrite.value else p.input) - p.input) / 1_000_000.0
  }

  // Nothing used costs nothing, and every token more its price.
  ghost predicate PricesTokens(cost: Usage -> real, p: Prices) {
    cost(Usage(0, 0, 0, 0)) == 0.0 && forall u: Usage :: PricesOneMore(cost, p, u)
  }

  function Pricing(p: Prices): Usage -> real {
    (u: Usage) => CostUsd(u, p)
  }

  // The cost is what prices tokens so,
  lemma CostPricesTokens(p: Prices)
    ensures PricesTokens(Pricing(p), p)
  {
    var cost := Pricing(p);
    forall u: Usage
      ensures PricesOneMore(cost, p, u)
    {
      CostOfOneMore(u, p);
    }
    assert cost(Usage(0, 0, 0, 0)) == CostUsd(Usage(0, 0, 0, 0), p) == 0.0;
  }

  lemma CostOfOneMore(u: Usage, p: Prices)
    ensures PricesOneMore(Pricing(p), p, u)
  {
  }

  // and nothing else does.
  lemma {:induction false} PricingIsUnique(a: Usage -> real, b: Usage -> real, p: Prices, u: Usage)
    requires PricesTokens(a, p) && PricesTokens(b, p)
    ensures a(u) == b(u)
    decreases u.input + u.output + u.cacheRead + u.cacheWrite
  {
    if u.output > 0 {
      var less := u.(output := u.output - 1);
      PricingIsUnique(a, b, p, less);
      assert PricesOneMore(a, p, less) && PricesOneMore(b, p, less) && less.(output := less.output + 1) == u;
    } else if u.cacheRead > 0 {
      var less := u.(cacheRead := u.cacheRead - 1);
      PricingIsUnique(a, b, p, less);
      assert PricesOneMore(a, p, less) && PricesOneMore(b, p, less) && less.(cacheRead := less.cacheRead + 1) == u;
    } else if u.cacheWrite > 0 {
      var less := u.(cacheWrite := u.cacheWrite - 1);
      PricingIsUnique(a, b, p, less);
      assert PricesOneMore(a, p, less) && PricesOneMore(b, p, less) && less.(cacheWrite := less.cacheWrite + 1) == u;
    } else if u.input > 0 {
      var less := u.(input := u.input - 1);
      PricingIsUnique(a, b, p, less);
      assert PricesOneMore(a, p, less) && PricesOneMore(b, p, less) && less.(input := less.input + 1) == u;
    } else {
      assert u == Usage(0, 0, 0, 0);
    }
  }

  lemma Scaled(a: real, b: real)
    requires a >= 0.0 && b >= 0.0
    ensures a * b >= 0.0
  {
  }

  function BoundaryCheck(cumulativeUsd: real, budgetUsd: real, firstSessionAt: Option<int>, tMax: int,
                         now: int): Option<StopReason> {
    if cumulativeUsd >= budgetUsd then Some(Budget)
    else if firstSessionAt.Some? && now - firstSessionAt.value >= tMax then Some(TMax)
    else None
  }

  function OverspendUsd(cumulativeUsd: real, budgetUsd: real): real {
    if cumulativeUsd - budgetUsd > 0.0 then cumulativeUsd - budgetUsd else 0.0
  }
}
