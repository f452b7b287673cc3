/**
 * The portfolio valuation computed inside `useMemo` in
 * src/widgets/portfolio-summary/PortfolioSummary.tsx: a price map built
 * from the market snapshot and then the realtime table, each holding
 * valued against it, totals, allocations written into the values in place,
 * an in-place sort by value, the summary statistics and the donut segments.
 */
module PortfolioValuation {
  import opened Wrappers
  import opened Strings
  import opened CoinModel
  import opened PortfolioModel

  /** The two fields of a market snapshot entry (CoinMarket) the valuation reads. */
  datatype MarketCoin = MarketCoin(id: string, currentPrice: real)

  /** HoldingWithValue (src/entities/portfolio/model/types.ts). */
  datatype HoldingWithValue = HoldingWithValue(
    holding: Holding,
    currentPrice: real,
    currentValue: real,
    pnl: real,
    pnlPercent: real,
    allocation: real)

  /** PortfolioStats (src/entities/portfolio/model/types.ts). */
  datatype PortfolioStats = PortfolioStats(totalValue: real, totalCost: real, totalPnL: real, totalPnLPercent: real)

  /** One segment handed to the donut chart; `caption` is its `label`. */
  datatype DonutSegment = DonutSegment(caption: string, value: real, color: string)

  /** `DONUT_COLORS`. */
  const DonutColors: seq<string> := ["#6C63FF", "#FF6B6B", "#4ECDC4", "#FFE66D",
                                     "#A8E6CF", "#FF8A80", "#82B1FF", "#B388FF"]

  /** The market snapshot's prices, a later entry for an id overwriting an earlier one. */
  function MarketPrices(market: seq<MarketCoin>): map<string, real>
    decreases |market|
  {
    if |market| == 0 then map[]
    else MarketPrices(market[..|market| - 1])[market[|market| - 1].id := market[|market| - 1].currentPrice]
  }

  /** `priceMap`: the market snapshot (absent until loaded), then the realtime table over it. */
  function PriceMap(market: Option<seq<MarketCoin>>, realtime: PriceTable): map<string, real> {
    (if market.Some? then MarketPrices(market.value) else map[]) + RealtimePrices(realtime)
  }

  /** The realtime table's prices. */
  function RealtimePrices(realtime: PriceTable): map<string, real> {
    map id | id in realtime :: realtime[id].price
  }

  /** The price of the last snapshot entry for `id`, if there is one. */
  function LastMarketPrice(market: seq<MarketCoin>, id: string): Option<real>
    decreases |market|
  {
    if |market| == 0 then None
    else if market[|market| - 1].id == id then Some(market[|market| - 1].currentPrice)
    else LastMarketPrice(market[..|market| - 1], id)
  }

  /** `priceMap.get(h.coinId) ?? h.buyPrice`. */
  function CurrentPrice(priceMap: map<string, real>, h: Holding): real {
    if h.coinId in priceMap then priceMap[h.coinId] else h.buyPrice
  }

  /** The snapshot's prices are those of each id's last entry, and only those ids. */
  lemma {:induction false} MarketPricesLast(market: seq<MarketCoin>, id: string)
    ensures LastMarketPrice(market, id).Some? <==> id in MarketPrices(market)
    ensures id in MarketPrices(market) ==> MarketPrices(market)[id] == LastMarketPrice(market, id).value
    decreases |market|
  {
    if |market| > 0 {
      MarketPricesLast(market[..|market| - 1], id);
    }
  }

  /**
   * Price precedence: the realtime price if the coin has one, else the
   * last snapshot price, else the holding's buy price.
   */
  lemma PricePrecedence(market: Option<seq<MarketCoin>>, realtime: PriceTable, h: Holding)
    ensures h.coinId in realtime ==>
      CurrentPrice(PriceMap(market, realtime), h) == realtime[h.coinId].price
    ensures h.coinId !in realtime && market.Some? && LastMarketPrice(market.value, h.coinId).Some? ==>
      CurrentPrice(PriceMap(market, realtime), h) == LastMarketPrice(market.value, h.coinId).value
    ensures h.coinId !in realtime && (market.None? || LastMarketPrice(market.value, h.coinId).None?) ==>
      CurrentPrice(PriceMap(market, realtime), h) == h.buyPrice
  {
    if market.Some? {
      MarketPricesLast(market.value, h.coinId);
    }
  }

  /** `h.amount * currentPrice`: what a holding is worth now. */
  function Worth(priceMap: map<string, real>, h: Holding): real {
    h.amount * CurrentPrice(priceMap, h)
  }

  /** `h.amount * h.buyPrice`. */
  function Cost(h: Holding): real {
    h.amount * h.buyPrice
  }

  /**
   * The value record of a holding before allocation: the holding, its
   * current price, its worth, a profit of worth minus cost, no allocation
   * yet (ValuedPercent states the percentage).
   */
  function Valued(priceMap: map<string, real>, h: Holding): (r: HoldingWithValue)
    ensures r.holding == h && r.currentPrice == CurrentPrice(priceMap, h) && r.allocation == 0.0
    ensures r.currentValue == Worth(priceMap, h)
    ensures r.pnl == r.currentValue - Cost(h)
  {
    var currentPrice := CurrentPrice(priceMap, h);
    var currentValue := h.amount * currentPrice;
    var cost := Cost(h);
    var pnl := currentValue - cost;
    HoldingWithValue(h, currentPrice, currentValue, pnl,
                     if cost > 0.0 then (pnl / cost) * 100.0 else 0.0, 0.0)
  }

  /**
   * The profit percentage is the profit per hundred of cost when cost is
   * positive, and 0 otherwise.
   */
  lemma ValuedPercent(priceMap: map<string, real>, h: Holding)
    ensures Cost(h) > 0.0 ==> Valued(priceMap, h).pnlPercent * Cost(h) == Valued(priceMap, h).pnl * 100.0
    ensures Cost(h) <= 0.0 ==> Valued(priceMap, h).pnlPercent == 0.0
  {
  }

  /** The sum of the holdings' current values. */
  function TotalValue(priceMap: map<string, real>, holdings: seq<Holding>): real
    decreases |holdings|
  {
    if |holdings| == 0 then 0.0
    else TotalValue(priceMap, holdings[..|holdings| - 1]) + Worth(priceMap, holdings[|holdings| - 1])
  }

  /** The sum of the holdings' costs. */
  function TotalCost(holdings: seq<Holding>): real
    decreases |holdings|
  {
    if |holdings| == 0 then 0.0
    else TotalCost(holdings[..|holdings| - 1]) + Cost(holdings[|holdings| - 1])
  }

  /** Totals over a concatenation are the sums of the parts' totals. */
  lemma {:induction false} TotalsConcat(priceMap: map<string, real>, a: seq<Holding>, b: seq<Holding>)
    ensures TotalValue(priceMap, a + b) == TotalValue(priceMap, a) + TotalValue(priceMap, b)
    ensures TotalCost(a + b) == TotalCost(a) + TotalCost(b)
    decreases |b|
  {
    if |b| == 0 {
      assert a + b == a;
    } else {
      var b' := b[..|b| - 1];
      assert (a + b)[..|a + b| - 1] == a + b';
      assert (a + b)[|a + b| - 1] == b[|b| - 1];
      TotalsConcat(priceMap, a, b');
    }
  }

  /** `h.allocation = totalValue > 0 ? (h.currentValue / totalValue) * 100 : 0`. */
  function Allocated(v: HoldingWithValue, totalValue: real): (r: HoldingWithValue)
    ensures r == v.(allocation := r.allocation)
    ensures totalValue <= 0.0 ==> r.allocation == 0.0
  {
    v.(allocation := if totalValue > 0.0 then (v.currentValue / totalValue) * 100.0 else 0.0)
  }

  /** Of a positive total, the allocation is the record's value per hundred of the total. */
  lemma AllocatedShare(v: HoldingWithValue, totalValue: real)
    requires totalValue > 0.0
    ensures Allocated(v, totalValue).allocation * totalValue == Allocated(v, totalValue).currentValue * 100.0
  {
  }

  /** The value records with allocation, in holding order, before the sort. */
  function Valuation(priceMap: map<string, real>, holdings: seq<Holding>): (r: seq<HoldingWithValue>)
    ensures |r| == |holdings|
    ensures forall i :: 0 <= i < |holdings| ==>
      r[i] == Allocated(Valued(priceMap, holdings[i]), TotalValue(priceMap, holdings))
    ensures forall i :: 0 <= i < |holdings| ==> r[i].currentValue == Worth(priceMap, holdings[i])
  {
    seq(|holdings|, i requires 0 <= i < |holdings| =>
      Allocated(Valued(priceMap, holdings[i]), TotalValue(priceMap, holdings)))
  }

  /** The sum of the allocations. */
  function AllocationSum(vs: seq<HoldingWithValue>): real
    decreases |vs|
  {
    if |vs| == 0 then 0.0 else AllocationSum(vs[..|vs| - 1]) + vs[|vs| - 1].allocation
  }

  /** The allocation sum leaving out position `k`. */
  lemma {:induction false} AllocationSumRemove(vs: seq<HoldingWithValue>, k: nat)
    requires k < |vs|
    ensures AllocationSum(vs) == AllocationSum(vs[..k] + vs[k + 1..]) + vs[k].allocation
    decreases |vs|
  {
    var n := |vs|;
    if k < n - 1 {
      var init := vs[..n - 1];
      AllocationSumRemove(init, k);
      assert init[..k] + init[k + 1..] == (vs[..k] + vs[k + 1..])[..n - 2];
      assert (vs[..k] + vs[k + 1..])[n - 2] == vs[n - 1];
    } else {
      assert vs[..k] + vs[k + 1..] == vs[..n - 1];
    }
  }

  /** Reordering does not change the allocation sum. */
  lemma {:induction false} AllocationSumPermutation(a: seq<HoldingWithValue>, b: seq<HoldingWithValue>)
    requires multiset(a) == multiset(b)
    ensures AllocationSum(a) == AllocationSum(b)
    decreases |a|
  {
    if |a| == 0 {
      assert |b| == |multiset(b)| == 0;
    } else {
      var n := |a|;
      var x := a[n - 1];
      assert x in multiset(b);
      var k :| 0 <= k < |b| && b[k] == x;
      var b' := b[..k] + b[k + 1..];
      assert b == b[..k] + [b[k]] + b[k + 1..];
      assert multiset(b) == multiset(b[..k]) + multiset{x} + multiset(b[k + 1..]);
      assert multiset(b') == multiset(b[..k]) + multiset(b[k + 1..]);
      assert a == a[..n - 1] + [x];
      assert multiset(a) == multiset(a[..n - 1]) + multiset{x};
      assert multiset(a[..n - 1]) == multiset(a) - multiset{x};
      assert multiset(b') == multiset(b) - multiset{x};
      AllocationSumPermutation(a[..n - 1], b');
      AllocationSumRemove(b, k);
    }
  }

  /** The sum of the records' current values. */
  function ValueSum(vs: seq<HoldingWithValue>): real
    decreases |vs|
  {
    if |vs| == 0 then 0.0 else ValueSum(vs[..|vs| - 1]) + vs[|vs| - 1].currentValue
  }

  /** Every record's allocation is its value per hundred of `t`. */
  ghost predicate Shares(vs: seq<HoldingWithValue>, t: real) {
    forall i :: 0 <= i < |vs| ==> vs[i].allocation * t == vs[i].currentValue * 100.0
  }

  /** Shares of a positive total, in percent, add up to the records' share of it. */
  lemma {:induction false} SharesAddUp(vs: seq<HoldingWithValue>, t: real)
    requires t > 0.0 && Shares(vs, t)
    ensures AllocationSum(vs) * t == ValueSum(vs) * 100.0
    decreases |vs|
  {
    if |vs| > 0 {
      var init := vs[..|vs| - 1];
      var last := vs[|vs| - 1];
      SharesAddUp(init, t);
      assert (AllocationSum(init) + last.allocation) * t == AllocationSum(init) * t + last.allocation * t;
    }
  }

  /** The current values of the valuation add up to the total value. */
  lemma {:induction false} ValuationValueSum(priceMap: map<string, real>, holdings: seq<Holding>, n: nat)
    requires n <= |holdings|
    ensures ValueSum(Valuation(priceMap, holdings)[..n]) == TotalValue(priceMap, holdings[..n])
    decreases n
  {
    if n > 0 {
      ValuationValueSum(priceMap, holdings, n - 1);
      var vs := Valuation(priceMap, holdings);
      assert vs[..n][..n - 1] == vs[..n - 1];
      assert holdings[..n][..n - 1] == holdings[..n - 1];
    }
  }

  /** When the portfolio is worth something, the allocations add up to 100. */
  lemma AllocationsAddUp(priceMap: map<string, real>, holdings: seq<Holding>)
    requires TotalValue(priceMap, holdings) > 0.0
    ensures AllocationSum(Valuation(priceMap, holdings)) == 100.0
  {
    var vs := Valuation(priceMap, holdings);
    var t := TotalValue(priceMap, holdings);
    ValuationValueSum(priceMap, holdings, |holdings|);
    assert vs[..|holdings|] == vs;
    assert holdings[..|holdings|] == holdings;
    ValuationShares(priceMap, holdings);
    SharesOfTotal(vs, t);
  }

  lemma ValuationShares(priceMap: map<string, real>, holdings: seq<Holding>)
    requires TotalValue(priceMap, holdings) > 0.0
    ensures Shares(Valuation(priceMap, holdings), TotalValue(priceMap, holdings))
  {
    var vs := Valuation(priceMap, holdings);
    var t := TotalValue(priceMap, holdings);
    forall i | 0 <= i < |vs|
      ensures vs[i].allocation * t == vs[i].currentValue * 100.0
    {
      assert vs[i] == Allocated(Valued(priceMap, holdings[i]), t);
      AllocatedShare(Valued(priceMap, holdings[i]), t);
    }
  }

  /** Of a positive total, each record's allocation is its value per hundred of the total. */
  lemma ValuationShare(priceMap: map<string, real>, holdings: seq<Holding>, i: nat)
    requires i < |holdings| && TotalValue(priceMap, holdings) > 0.0
    ensures Valuation(priceMap, holdings)[i].allocation * TotalValue(priceMap, holdings) ==
            Valuation(priceMap, holdings)[i].currentValue * 100.0
  {
    AllocatedShare(Valued(priceMap, holdings[i]), TotalValue(priceMap, holdings));
  }

  /** Shares, in percent, of a positive total that the records' values add up to, add up to 100. */
  lemma SharesOfTotal(vs: seq<HoldingWithValue>, t: real)
    requires t > 0.0 && ValueSum(vs) == t && Shares(vs, t)
    ensures AllocationSum(vs) == 100.0
  {
    SharesAddUp(vs, t);
    CancelPositive(AllocationSum(vs), ValueSum(vs), t);
  }

  /** A share `a` with `a * t == v * 100` of its own total `v == t` is 100. */
  lemma CancelPositive(a: real, v: real, t: real)
    requires t > 0.0 && a * t == v * 100.0 && v == t
    ensures a == 100.0
  {
    assert (a - 100.0) * t == 0.0;
  }

  /** Ordered by current value, highest first. */
  ghost predicate SortedDesc(vs: seq<HoldingWithValue>) {
    forall i, j :: 0 <= i < j < |vs| ==> vs[i].currentValue >= vs[j].currentValue
  }

  /**
   * The summary statistics: the profit is worth minus cost, and its
   * percentage the profit per hundred of cost, 0 when cost is not positive.
   */
  function Stats(totalValue: real, totalCost: real): (r: PortfolioStats)
    ensures r.totalValue == totalValue && r.totalCost == totalCost
    ensures r.totalPnL == totalValue - totalCost
    ensures totalCost <= 0.0 ==> r.totalPnLPercent == 0.0
  {
    PortfolioStats(totalValue, totalCost, totalValue - totalCost,
                   if totalCost > 0.0 then ((totalValue - totalCost) / totalCost) * 100.0 else 0.0)
  }

  /** With a positive cost, the percentage is the profit per hundred of cost. */
  lemma StatsPercent(totalValue: real, totalCost: real)
    requires totalCost > 0.0
    ensures Stats(totalValue, totalCost).totalPnLPercent * totalCost == Stats(totalValue, totalCost).totalPnL * 100.0
  {
  }

  /** The donut segments: one per value record, in order, colours cycling through the eight. */
  function Segments(vs: seq<HoldingWithValue>): (r: seq<DonutSegment>)
    ensures |r| == |vs|
    ensures forall i :: 0 <= i < |vs| ==>
      r[i] == DonutSegment(ToUpper(vs[i].holding.coinSymbol), vs[i].currentValue, DonutColors[i % 8])
  {
    seq(|vs|, i requires 0 <= i < |vs| =>
      DonutSegment(ToUpper(vs[i].holding.coinSymbol), vs[i].currentValue, DonutColors[i % |DonutColors|]))
  }

  /**
   * Midway through an insertion step: the first `i + 1` records are in
   * order once the moving record at `j` is left out.
   */
  ghost predicate Inserting(s: seq<HoldingWithValue>, i: nat, j: nat)
    requires j <= i < |s|
  {
    forall p, q :: 0 <= p < q <= i && q != j ==> s[p].currentValue >= s[q].currentValue
  }

  /** Swapping the moving record with a smaller one before it keeps Inserting. */
  lemma SwapDown(s: seq<HoldingWithValue>, i: nat, j: nat)
    requires 0 < j <= i < |s| && Inserting(s, i, j)
    requires s[j - 1].currentValue < s[j].currentValue
    ensures Inserting(s[j - 1 := s[j]][j := s[j - 1]], i, j - 1)
  {
    var t := s[j - 1 := s[j]][j := s[j - 1]];
    forall p, q | 0 <= p < q <= i && q != j - 1
      ensures t[p].currentValue >= t[q].currentValue
    {
      if p == j - 1 {
        assert t[p] == s[j];
        if q != j {
          assert s[j - 1].currentValue >= s[q].currentValue;
        }
      } else if p == j {
        assert t[q] == s[q];
      }
    }
  }

  /** Once the moving record meets a larger one, or the front, the prefix is in order. */
  lemma InsertDone(s: seq<HoldingWithValue>, i: nat, j: nat)
    requires j <= i < |s| && Inserting(s, i, j)
    requires j == 0 || s[j - 1].currentValue >= s[j].currentValue
    ensures SortedDesc(s[..i + 1])
  {
    forall p, q | 0 <= p < q <= i && q == j
      ensures s[p].currentValue >= s[q].currentValue
    {
      if p < j - 1 {
        assert s[p].currentValue >= s[j - 1].currentValue;
      }
    }
  }

  /**
   * One insertion step: move `a[i]` down past the smaller values before it,
   * so the first `i + 1` records are in order.
   */
  method InsertDesc(a: array<HoldingWithValue>, i: nat)
    requires i < a.Length && SortedDesc(a[..i])
    modifies a
    ensures SortedDesc(a[..i + 1])
    ensures forall k :: i < k < a.Length ==> a[k] == old(a[k])
    ensures multiset(a[..]) == multiset(old(a[..]))
  {
    var j := i;
    assert Inserting(a[..], i, j) by {
      assert forall p :: 0 <= p < i ==> a[..][p] == a[..i][p];
    }
    while j > 0 && a[j - 1].currentValue < a[j].currentValue
      invariant 0 <= j <= i
      invariant Inserting(a[..], i, j)
      invariant forall k :: i < k < a.Length ==> a[k] == old(a[k])
      invariant multiset(a[..]) == multiset(old(a[..]))
    {
      SwapDown(a[..], i, j);
      a[j - 1], a[j] := a[j], a[j - 1];
      j := j - 1;
    }
    InsertDone(a[..], i, j);
    assert a[..][..i + 1] == a[..i + 1];
  }

  /**
   * `holdingsWithValue.sort((a, b) => b.currentValue - a.currentValue)`,
   * as an insertion sort.
   */
  method SortByValueDesc(a: array<HoldingWithValue>)
    modifies a
    ensures SortedDesc(a[..])
    ensures multiset(a[..]) == multiset(old(a[..]))
  {
    for i := 0 to a.Length
      invariant SortedDesc(a[..i])
      invariant multiset(a[..]) == multiset(old(a[..]))
    {
      InsertDesc(a, i);
    }
    assert a[..a.Length] == a[..];
  }

  /** The allocation loop: each record's allocation from the total, in place. */
  method Allocate(a: array<HoldingWithValue>, totalValue: real)
    modifies a
    ensures forall i :: 0 <= i < a.Length ==> a[i] == Allocated(old(a[i]), totalValue)
  {
    for i := 0 to a.Length
      invariant forall k :: 0 <= k < i ==> a[k] == Allocated(old(a[k]), totalValue)
      invariant forall k :: i <= k < a.Length ==> a[k] == old(a[k])
    {
      a[i] := a[i].(allocation := if totalValue > 0.0 then (a[i].currentValue / totalValue) * 100.0 else 0.0);
    }
  }

  /** The `marketData.forEach` loop: each snapshot price set into an empty map in turn. */
  method SetMarketPrices(coins: seq<MarketCoin>) returns (priceMap: map<string, real>)
    ensures priceMap == MarketPrices(coins)
  {
    priceMap := map[];
    for i := 0 to |coins|
      invariant priceMap == MarketPrices(coins[..i])
    {
      assert coins[..i + 1][..i] == coins[..i];
      priceMap := priceMap[coins[i].id := coins[i].currentPrice];
    }
    assert coins[..|coins|] == coins;
  }

  /** The `Object.entries(realtimePrices).forEach` loop: each realtime price set over `base`. */
  method SetRealtimePrices(base: map<string, real>, realtime: PriceTable) returns (priceMap: map<string, real>)
    ensures priceMap == base + RealtimePrices(realtime)
  {
    priceMap := base;
    var pending := realtime.Keys;
    while pending != {}
      invariant pending <= realtime.Keys
      invariant priceMap.Keys == base.Keys + (realtime.Keys - pending)
      invariant forall id :: id in realtime && id !in pending ==> priceMap[id] == realtime[id].price
      invariant forall id :: id in base && (id !in realtime || id in pending) ==> priceMap[id] == base[id]
      decreases pending
    {
      var id :| id in pending;
      pending := pending - {id};
      priceMap := priceMap[id := realtime[id].price];
    }
  }

  /** The two `forEach` loops that fill `priceMap`. */
  method BuildPriceMap(market: Option<seq<MarketCoin>>, realtime: PriceTable) returns (priceMap: map<string, real>)
    ensures priceMap == PriceMap(market, realtime)
  {
    priceMap := map[];
    if market.Some? {
      priceMap := SetMarketPrices(market.value);
    }
    priceMap := SetRealtimePrices(priceMap, realtime);
  }

  /**
   * The `holdings.map` whose callback values each holding (Valued) and adds
   * its worth and cost to the running totals.
   */
  method ValueHoldings(priceMap: map<string, real>, holdings: seq<Holding>)
    returns (values: array<HoldingWithValue>, totalValue: real, totalCost: real)
    ensures fresh(values) && values.Length == |holdings|
    ensures forall k :: 0 <= k < |holdings| ==> values[k] == Valued(priceMap, holdings[k])
    ensures totalValue == TotalValue(priceMap, holdings) && totalCost == TotalCost(holdings)
  {
    totalValue := 0.0;
    totalCost := 0.0;
    values := new HoldingWithValue[|holdings|];
    for i := 0 to |holdings|
      invariant totalValue == TotalValue(priceMap, holdings[..i])
      invariant totalCost == TotalCost(holdings[..i])
      invariant forall k :: 0 <= k < i ==> values[k] == Valued(priceMap, holdings[k])
    {
      assert holdings[..i + 1][..i] == holdings[..i];
      var v := Valued(priceMap, holdings[i]);
      totalValue := totalValue + v.currentValue;
      totalCost := totalCost + Cost(holdings[i]);
      values[i] := v;
    }
    assert holdings[..|holdings|] == holdings;
  }

  /**
   * The whole `useMemo` body: the value records sorted by value, highest
   * first, a reordering of the records in holding order whose allocations
   * add up to 100 when the portfolio is worth something; the statistics
   * over all holdings; and one donut segment per sorted record.
   */
  method Summarize(holdings: seq<Holding>, market: Option<seq<MarketCoin>>, realtime: PriceTable)
    returns (holdingsWithValue: seq<HoldingWithValue>, stats: PortfolioStats, donutSegments: seq<DonutSegment>)
    ensures SortedDesc(holdingsWithValue)
    ensures multiset(holdingsWithValue) == multiset(Valuation(PriceMap(market, realtime), holdings))
    ensures TotalValue(PriceMap(market, realtime), holdings) > 0.0 ==> AllocationSum(holdingsWithValue) == 100.0
    ensures stats == Stats(TotalValue(PriceMap(market, realtime), holdings), TotalCost(holdings))
    ensures donutSegments == Segments(holdingsWithValue)
  {
    var priceMap := BuildPriceMap(market, realtime);
    var values, totalValue, totalCost := ValueHoldings(priceMap, holdings);
    Allocate(values, totalValue);
    assert values[..] == Valuation(priceMap, holdings);
    SortByValueDesc(values);
    holdingsWithValue := values[..];
    stats := Stats(totalValue, totalCost);
    donutSegments := Segments(holdingsWithValue);
    if totalValue > 0.0 {
      AllocationsAddUp(priceMap, holdings);
      AllocationSumPermutation(Valuation(priceMap, holdings), holdingsWithValue);
    }
  }
}
