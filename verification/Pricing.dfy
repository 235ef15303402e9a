/** What tokens cost: model prices per million tokens, exact over the reals. */
module Pricing {
  import opened Events

  /** A model's rates. A cache rate that is not set is the input rate. */
  datatype ModelPrice = ModelPrice(input: real, output: real, cacheRead: Option<real>, cacheWrite: Option<real>)

  type Prices = map<string, ModelPrice>

  const TOKENS_PER_MILLION := 1000000.0

  function PriceOf(prices: Prices, model: Option<string>): Option<ModelPrice> {
    if model.Some? && model.value in prices then Some(prices[model.value]) else None
  }

  function CacheReadRate(price: ModelPrice): real {
    if price.cacheRead.None? then price.input else price.cacheRead.value
  }

  function CacheWriteRate(price: ModelPrice): real {
    if price.cacheWrite.None? then price.input else price.cacheWrite.value
  }

  /** Cache tokens are part of the input, so only what is left of it costs the input rate. */
  function TokenCost(t: Tokens, price: ModelPrice): real {
    ((t.input - t.cacheRead - t.cacheCreation) as real * price.input
     + t.cacheRead as real * CacheReadRate(price)
     + t.cacheCreation as real * CacheWriteRate(price)
     + t.output as real * price.output) / TOKENS_PER_MILLION
  }

  function CacheReadCost(tokens: real, price: ModelPrice): real {
    tokens * CacheReadRate(price) / TOKENS_PER_MILLION
  }

  lemma Distribute(a: int, b: int, rate: real)
    ensures (a + b) as real * rate == a as real * rate + b as real * rate
  {
  }

  /** Cost is additive: priced at one model, two counts cost what their sum costs. */
  lemma TokenCostAdds(a: Tokens, b: Tokens, price: ModelPrice)
    ensures TokenCost(AddTokens(a, b), price) == TokenCost(a, price) + TokenCost(b, price)
  {
    Distribute(a.input - a.cacheRead - a.cacheCreation, b.input - b.cacheRead - b.cacheCreation, price.input);
    Distribute(a.cacheRead, b.cacheRead, CacheReadRate(price));
    Distribute(a.cacheCreation, b.cacheCreation, CacheWriteRate(price));
    Distribute(a.output, b.output, price.output);
    var s := AddTokens(a, b);
    assert s.input - s.cacheRead - s.cacheCreation
        == (a.input - a.cacheRead - a.cacheCreation) + (b.input - b.cacheRead - b.cacheCreation);
  }

  /** With no cache rate of its own, a model's cached input costs what uncached input does. */
  lemma CacheAtInputRate(t: Tokens, price: ModelPrice)
    requires price.cacheRead.None? && price.cacheWrite.None?
    ensures TokenCost(t, price) == (t.input as real * price.input + t.output as real * price.output) / TOKENS_PER_MILLION
  {
    Distribute(t.input - t.cacheRead - t.cacheCreation, t.cacheRead, price.input);
    Distribute(t.input - t.cacheCreation, t.cacheCreation, price.input);
  }

  /** What one column of `n` tokens costs, for any price: each token at the column's own rate per million, and a
      cache read or write at the input rate where it has none. */
  lemma ColumnsCostTheirRates(n: int, price: ModelPrice)
    ensures TokenCost(Tokens(n, 0, 0, 0), price) * 1000000.0 == n as real * price.input
    ensures TokenCost(Tokens(0, n, 0, 0), price) * 1000000.0 == n as real * price.output
    ensures TokenCost(Tokens(n, 0, n, 0), price) * 1000000.0
         == n as real * (if price.cacheRead.Some? then price.cacheRead.value else price.input)
    ensures TokenCost(Tokens(n, 0, 0, n), price) * 1000000.0
         == n as real * (if price.cacheWrite.Some? then price.cacheWrite.value else price.input)
  {
  }

  /** Every count is one of uncached input, one of output, one of cache reads and one of cache writes, and costs
      what the four cost. */
  lemma CostByColumns(t: Tokens, price: ModelPrice)
    ensures TokenCost(t, price)
         == TokenCost(Tokens(t.input - t.cacheRead - t.cacheCreation, 0, 0, 0), price) + TokenCost(Tokens(0, t.output, 0, 0), price)
            + TokenCost(Tokens(t.cacheRead, 0, t.cacheRead, 0), price) + TokenCost(Tokens(t.cacheCreation, 0, 0, t.cacheCreation), price)
  {
    var input, output := Tokens(t.input - t.cacheRead - t.cacheCreation, 0, 0, 0), Tokens(0, t.output, 0, 0);
    var cached, written := Tokens(t.cacheRead, 0, t.cacheRead, 0), Tokens(t.cacheCreation, 0, 0, t.cacheCreation);
    TokenCostAdds(input, output, price);
    TokenCostAdds(AddTokens(input, output), cached, price);
    TokenCostAdds(AddTokens(AddTokens(input, output), cached), written, price);
    assert AddTokens(AddTokens(AddTokens(input, output), cached), written) == t;
  }

  /** What memory's carried tokens are charged is what so many cache reads cost. */
  lemma CarriedCostsAsCacheReads(n: int, price: ModelPrice)
    ensures CacheReadCost(n as real, price) == TokenCost(Tokens(n, 0, n, 0), price)
  {
  }
}
