/** The "Total Money Made" dashboard card: a left fold over the sales adding
    each sale's profit after the business's consignment share and the cost
    of making the items. */
module TotalMoney {
  import opened Wrappers
  import opened SaleInfo

  /** `consignmentShare`: the business's cut of the amount received, its
      percentage of it (nothing when the percentage is falsy). */
  function ConsignmentShare(sale: Sale): (share: real)
    ensures share == TotalReceived(sale) * Percentage(sale) / 100.0
  {
    if HasBusinessPercentage(sale)
    then TotalReceived(sale) * (sale.businessPercentage.value / 100.0)
    else 0.0
  }

  /** `yourShare`: what the seller keeps of the amount received, the
      remaining percentage of it. */
  function YourShare(sale: Sale): (share: real)
    ensures share == TotalReceived(sale) * (100.0 - Percentage(sale)) / 100.0
  {
    var t, p := TotalReceived(sale), Percentage(sale);
    assert t - t * p / 100.0 == t * (100.0 - p) / 100.0;
    TotalReceived(sale) - ConsignmentShare(sale)
  }

  /** `costToMake`: the cost of making the units sold. */
  function CostToMake(sale: Sale): (cost: real)
    ensures sale.quantitySold >= 0.0 && sale.cost >= 0.0 ==> cost >= 0.0
  {
    sale.quantitySold * sale.cost
  }

  /** `profit`, the amount the reducer adds for one sale: per unit, the
      seller's part of the price less the cost; without a (truthy)
      percentage, quantity times margin. */
  function Profit(sale: Sale): (profit: real)
    ensures profit == sale.quantitySold * (sale.salePrice * (100.0 - Percentage(sale)) / 100.0 - sale.cost)
    ensures !HasBusinessPercentage(sale) ==> profit == sale.quantitySold * (sale.salePrice - sale.cost)
  {
    var q, pr, p := sale.quantitySold, sale.salePrice, Percentage(sale);
    assert q * pr * (100.0 - p) / 100.0 - q * sale.cost == q * (pr * (100.0 - p) / 100.0 - sale.cost);
    YourShare(sale) - CostToMake(sale)
  }

  /** The reducer: starting from `acc`, add each sale's profit, left to right.
      Whatever the start value, the fold is that value plus the sum of the
      profits. */
  function ProfitFold(acc: real, sales: seq<Sale>): (r: real)
    ensures r == acc + SumProfits(sales)
    decreases |sales|
  {
    if sales == [] then acc else ProfitFold(acc + Profit(sales[0]), sales[1..])
  }

  /** The value shown: the fold started at 0, which is the sum of the profits. */
  function Total(sales: seq<Sale>): (total: real)
    ensures total == SumProfits(sales)
  {
    ProfitFold(0.0, sales)
  }

  /** Reference definition: the plain sum of the profits. */
  function SumProfits(sales: seq<Sale>): real
    decreases |sales|
  {
    if sales == [] then 0.0 else Profit(sales[0]) + SumProfits(sales[1..])
  }

  lemma {:induction false} SumProfitsAppend(sales: seq<Sale>, sale: Sale)
    ensures SumProfits(sales + [sale]) == SumProfits(sales) + Profit(sale)
    decreases |sales|
  {
    if sales != [] {
      assert (sales + [sale])[1..] == sales[1..] + [sale];
      SumProfitsAppend(sales[1..], sale);
    }
  }

  /** No sales: a total of 0; one more sale adds exactly its profit. */
  lemma TotalStep(sales: seq<Sale>, sale: Sale)
    ensures Total([]) == 0.0
    ensures Total(sales + [sale]) == Total(sales) + Profit(sale)
  {
    SumProfitsAppend(sales, sale);
  }

  /** With a percentage in [0, 100] and a non-negative amount received, the
      business never takes more than was received, nor a negative amount. */
  lemma ConsignmentShareBounds(sale: Sale)
    requires 0.0 <= Percentage(sale) <= 100.0
    requires TotalReceived(sale) >= 0.0
    ensures 0.0 <= ConsignmentShare(sale) <= TotalReceived(sale)
  {
    var t, p := TotalReceived(sale), Percentage(sale);
    assert ConsignmentShare(sale) == t * (p / 100.0);
    assert 0.0 <= p / 100.0 <= 1.0;
    assert t * (p / 100.0) <= t * 1.0 by {
      MulMonotone(t, p / 100.0, 1.0);
    }
    MulMonotone(t, 0.0, p / 100.0);
  }

  lemma MulMonotone(t: real, a: real, b: real)
    requires t >= 0.0 && a <= b
    ensures t * a <= t * b
  {
    assert t * b - t * a == t * (b - a);
  }
}
