/** Realized economics of a prefunded parallel operation: what was spent, what
    was sold, and the base imbalance marked at the average of the two prices. */
module ParallelEconomics {
  import opened Common

  /** Ordinal 1 is the buy and ordinal 2 the sale; breakerSale marks a sale of
      the circuit-breaker branch. */
  datatype Settlement = Settlement(ordinal: int, breakerSale: bool, actualInput: Amount, actualOutput: Amount)

  datatype Cost = Cost(asset: string, value: real, includedInOutput: bool)

  datatype Plan = Plan(baseAsset: string, quoteAsset: string, decimals: map<string, nat>)

  datatype Economics = Economics(
    finalAmount: Amount, quoteDelta: real, baseDelta: real, markPrice: real, markedBase: real,
    executionCost: real, externalCost: real, gross: real, net: real)

  function PowerOfTen(n: nat): (p: nat)
    ensures p > 0
  {
    if n == 0 then 1 else 10 * PowerOfTen(n - 1)
  }

  /** Units in the token's own scale. */
  function Human(plan: Plan, a: Amount): (r: real)
    requires a.token in plan.decimals
    ensures a.units > 0 ==> r > 0.0
  {
    a.units as real / PowerOfTen(plan.decimals[a.token]) as real
  }

  ghost predicate Known(plan: Plan, s: Settlement) {
    s.actualInput.token in plan.decimals && s.actualOutput.token in plan.decimals
  }

  /** Recorded settlements carry positive amounts. */
  ghost predicate Positive(s: Settlement) { s.actualInput.units > 0 && s.actualOutput.units > 0 }

  predicate IsSale(s: Settlement) { s.ordinal == 2 || (s.ordinal != 1 && s.breakerSale) }

  /** The sales, in order. */
  function Sales(settlements: seq<Settlement>): seq<Settlement> {
    if |settlements| == 0 then []
    else
      var last := settlements[|settlements| - 1];
      Sales(settlements[..|settlements| - 1]) + if IsSale(last) then [last] else []
  }

  /** The settlement of the buy: the last one with ordinal 1. */
  function Buy(settlements: seq<Settlement>): Option<Settlement> {
    if |settlements| == 0 then None
    else if settlements[|settlements| - 1].ordinal == 1 then Some(settlements[|settlements| - 1])
    else Buy(settlements[..|settlements| - 1])
  }

  ghost predicate AllKnown(plan: Plan, ss: seq<Settlement>) { forall i :: 0 <= i < |ss| ==> Known(plan, ss[i]) }

  ghost predicate AllPositive(ss: seq<Settlement>) { forall i :: 0 <= i < |ss| ==> Positive(ss[i]) }

  /** Quote received, and base given, over all sales. */
  ghost function QuoteOut(plan: Plan, sales: seq<Settlement>): real
    requires AllKnown(plan, sales)
  {
    if |sales| == 0 then 0.0
    else QuoteOut(plan, sales[..|sales| - 1]) + Human(plan, sales[|sales| - 1].actualOutput)
  }

  ghost function BaseSold(plan: Plan, sales: seq<Settlement>): real
    requires AllKnown(plan, sales)
  {
    if |sales| == 0 then 0.0
    else BaseSold(plan, sales[..|sales| - 1]) + Human(plan, sales[|sales| - 1].actualInput)
  }

  lemma {:induction false} SalesPositive(plan: Plan, sales: seq<Settlement>)
    requires AllKnown(plan, sales) && AllPositive(sales)
    ensures BaseSold(plan, sales) >= 0.0 && QuoteOut(plan, sales) >= 0.0
    ensures |sales| > 0 ==> BaseSold(plan, sales) > 0.0 && QuoteOut(plan, sales) > 0.0
  {
    if |sales| > 0 { SalesPositive(plan, sales[..|sales| - 1]); }
  }

  ghost function TotalCost(costs: seq<Cost>): real {
    if |costs| == 0 then 0.0 else TotalCost(costs[..|costs| - 1]) + costs[|costs| - 1].value
  }

  /** Costs that the outputs do not already reflect. */
  ghost function ExternalCost(costs: seq<Cost>): real {
    if |costs| == 0 then 0.0
    else
      var last := costs[|costs| - 1];
      ExternalCost(costs[..|costs| - 1]) + if last.includedInOutput then 0.0 else last.value
  }

  // ---------- the identity ----------

  lemma HalfSpread(bought: real, sold: real, buyPrice: real, sellPrice: real)
    ensures sellPrice * sold - buyPrice * bought + (bought - sold) * ((buyPrice + sellPrice) / 2.0)
         == (bought + sold) * (sellPrice - buyPrice) / 2.0
  {
    var a, b, c, d := buyPrice * bought, buyPrice * sold, sellPrice * bought, sellPrice * sold;
    assert (bought - sold) * (buyPrice + sellPrice) == a - b + c - d;
    assert (bought + sold) * (sellPrice - buyPrice) == c - a + d - b;
  }

  lemma PriceTimesAmount(quote: real, base: real)
    requires base > 0.0
    ensures quote / base * base == quote
  {
  }

  lemma SameSign(volume: real, spread: real)
    requires volume > 0.0
    ensures (volume * spread / 2.0 > 0.0 <==> spread > 0.0) && (volume * spread / 2.0 < 0.0 <==> spread < 0.0)
  {
    if spread > 0.0 { assert volume * spread > 0.0; }
    if spread < 0.0 { assert volume * -spread > 0.0; assert volume * spread == -(volume * -spread); }
  }

  /** Gross PnL from the deltas equals half the volume times the price spread,
      so its sign is the sign of the spread. */
  lemma GrossIsHalfSpread(quoteIn: real, bought: real, quoteOut: real, sold: real)
    requires bought > 0.0 && sold > 0.0
    ensures var buyPrice, sellPrice := quoteIn / bought, quoteOut / sold;
            var gross := quoteOut - quoteIn + (bought - sold) * ((buyPrice + sellPrice) / 2.0);
            && gross == (bought + sold) * (sellPrice - buyPrice) / 2.0
            && (gross > 0.0 <==> sellPrice > buyPrice) && (gross < 0.0 <==> sellPrice < buyPrice)
  {
    var buyPrice, sellPrice := quoteIn / bought, quoteOut / sold;
    PriceTimesAmount(quoteIn, bought);
    PriceTimesAmount(quoteOut, sold);
    HalfSpread(bought, sold, buyPrice, sellPrice);
    SameSign(bought + sold, sellPrice - buyPrice);
  }

  /** The law of realized gross PnL. */
  ghost predicate GrossLaw(gross: real, quoteIn: real, bought: real, quoteOut: real, sold: real) {
    && bought > 0.0 && sold > 0.0
    && gross == (bought + sold) * (quoteOut / sold - quoteIn / bought) / 2.0
    && (gross > 0.0 <==> quoteOut / sold > quoteIn / bought)
    && (gross < 0.0 <==> quoteOut / sold < quoteIn / bought)
    && (bought == sold ==> gross == quoteOut - quoteIn)
  }

  // ---------- the calculation ----------

  /** Mark the base imbalance at the average of the two prices. */
  method MarkToMid(quoteIn: real, bought: real, quoteOut: real, sold: real) returns (mark: real, marked: real, gross: real)
    requires bought > 0.0 && sold > 0.0
    ensures gross == quoteOut - quoteIn + marked && GrossLaw(gross, quoteIn, bought, quoteOut, sold)
    ensures marked == (bought - sold) * mark && mark == (quoteIn / bought + quoteOut / sold) / 2.0
  {
    var buyPrice, sellPrice := quoteIn / bought, quoteOut / sold;
    mark := (buyPrice + sellPrice) / 2.0;
    marked := (bought - sold) * mark;
    gross := quoteOut - quoteIn + marked;
    GrossIsHalfSpread(quoteIn, bought, quoteOut, sold);
  }

  method SelectLegs(settlements: seq<Settlement>) returns (buy: Option<Settlement>, sales: seq<Settlement>)
    ensures buy == Buy(settlements) && sales == Sales(settlements)
  {
    buy, sales := None, [];
    for i := 0 to |settlements|
      invariant buy == Buy(settlements[..i]) && sales == Sales(settlements[..i])
    {
      assert settlements[..i + 1][..i] == settlements[..i];
      var s := settlements[i];
      if s.ordinal == 1 {
        buy := Some(s);
      } else if s.ordinal == 2 {
        sales := sales + [s];
      } else if s.breakerSale {
        sales := sales + [s];
      }
    }
    assert settlements[..|settlements|] == settlements;
  }

  method SumSales(plan: Plan, sales: seq<Settlement>) returns (ok: bool, quoteOut: real, baseSold: real)
    ensures ok == AllKnown(plan, sales)
    ensures ok ==> quoteOut == QuoteOut(plan, sales) && baseSold == BaseSold(plan, sales)
  {
    quoteOut, baseSold := 0.0, 0.0;
    for i := 0 to |sales|
      invariant AllKnown(plan, sales[..i])
      invariant quoteOut == QuoteOut(plan, sales[..i]) && baseSold == BaseSold(plan, sales[..i])
    {
      assert sales[..i + 1][..i] == sales[..i];
      if sales[i].actualOutput.token !in plan.decimals || sales[i].actualInput.token !in plan.decimals {
        return false, quoteOut, baseSold;
      }
      quoteOut := quoteOut + Human(plan, sales[i].actualOutput);
      baseSold := baseSold + Human(plan, sales[i].actualInput);
    }
    assert sales[..|sales|] == sales;
    ok := true;
  }

  method SumCosts(asset: string, costs: seq<Cost>) returns (ok: bool, total: real, external: real)
    ensures ok == forall i :: 0 <= i < |costs| ==> costs[i].asset == asset
    ensures ok ==> total == TotalCost(costs) && external == ExternalCost(costs)
  {
    total, external := 0.0, 0.0;
    for i := 0 to |costs|
      invariant forall k :: 0 <= k < i ==> costs[k].asset == asset
      invariant total == TotalCost(costs[..i]) && external == ExternalCost(costs[..i])
    {
      assert costs[..i + 1][..i] == costs[..i];
      if costs[i].asset != asset { return false, total, external; }
      total := total + costs[i].value;
      if !costs[i].includedInOutput { external := external + costs[i].value; }
    }
    assert costs[..|costs|] == costs;
    ok := true;
  }

  /** What can be calculated at all. */
  ghost predicate Calculable(plan: Plan, settlements: seq<Settlement>, costs: seq<Cost>) {
    && |settlements| >= 2 && plan.baseAsset != "" && plan.quoteAsset != ""
    && Buy(settlements).Some? && |Sales(settlements)| > 0
    && Known(plan, Buy(settlements).value) && AllKnown(plan, Sales(settlements))
    && forall i :: 0 <= i < |costs| ==> costs[i].asset == plan.quoteAsset
  }

  /** What the economics say of the amounts they come from. */
  ghost predicate Realized(e: Economics, quoteIn: real, bought: real, quoteOut: real, sold: real, total: real, external: real) {
    && GrossLaw(e.gross, quoteIn, bought, quoteOut, sold)
    && e.quoteDelta == quoteOut - quoteIn && e.baseDelta == bought - sold
    && e.markedBase == e.baseDelta * e.markPrice && e.gross == e.quoteDelta + e.markedBase
    && e.executionCost == total && e.externalCost == external && e.net == e.gross - external
  }

  method Realize(last: Amount, quoteIn: real, bought: real, quoteOut: real, sold: real, total: real, external: real) returns (e: Economics)
    requires bought > 0.0 && sold > 0.0
    ensures e.finalAmount == last && Realized(e, quoteIn, bought, quoteOut, sold, total, external)
  {
    var mark, marked, gross := MarkToMid(quoteIn, bought, quoteOut, sold);
    e := Economics(last, quoteOut - quoteIn, bought - sold, mark, marked, total, external, gross, gross - external);
  }

  method CalculateParallelEconomics(plan: Plan, settlements: seq<Settlement>, costs: seq<Cost>) returns (r: Option<Economics>)
    requires AllPositive(settlements)
    ensures r.Some? <==> Calculable(plan, settlements, costs)
    ensures r.Some? ==> Realized(r.value, Human(plan, Buy(settlements).value.actualInput), Human(plan, Buy(settlements).value.actualOutput),
                                 QuoteOut(plan, Sales(settlements)), BaseSold(plan, Sales(settlements)), TotalCost(costs), ExternalCost(costs))
    ensures r.Some? ==> r.value.finalAmount == Sales(settlements)[|Sales(settlements)| - 1].actualOutput
  {
    if |settlements| < 2 || plan.baseAsset == "" || plan.quoteAsset == "" { return None; }
    var buy, sales := SelectLegs(settlements);
    if buy.None? || |sales| == 0 { return None; }
    LegsPositive(settlements);
    if buy.value.actualInput.token !in plan.decimals || buy.value.actualOutput.token !in plan.decimals { return None; }
    var quoteIn, bought := Human(plan, buy.value.actualInput), Human(plan, buy.value.actualOutput);
    var ok, quoteOut, sold := SumSales(plan, sales);
    if !ok { return None; }
    SalesPositive(plan, sales);
    var priced, total, external := SumCosts(plan.quoteAsset, costs);
    if !priced { return None; }
    var economics := Realize(sales[|sales| - 1].actualOutput, quoteIn, bought, quoteOut, sold, total, external);
    return Some(economics);
  }

  lemma {:induction false} LegsPositive(settlements: seq<Settlement>)
    requires AllPositive(settlements)
    ensures Buy(settlements).Some? ==> Positive(Buy(settlements).value)
    ensures AllPositive(Sales(settlements))
  {
    if |settlements| > 0 { LegsPositive(settlements[..|settlements| - 1]); }
  }
}
