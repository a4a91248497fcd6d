/** The "Recent Sales" dashboard table: one row per sale, whose last column
    is the amount received after the business's percentage. */
module SalesTable {
  import opened Wrappers
  import opened SaleInfo
  import TotalMoney

  /** `adjustedTotalReceived`: the amount received less the business's
      percentage, which is the seller's share the Total Money card uses. */
  function AdjustedTotalReceived(sale: Sale): (adjusted: real)
    ensures adjusted == TotalMoney.YourShare(sale)
  {
    var t, p := TotalReceived(sale), Percentage(sale);
    assert t * (1.0 - p / 100.0) == t * (100.0 - p) / 100.0;
    if HasBusinessPercentage(sale)
    then TotalReceived(sale) * (1.0 - sale.businessPercentage.value / 100.0)
    else TotalReceived(sale)
  }

  /** One rendered row: date, product, quantity, price, total received. */
  datatype SaleRow = SaleRow(
    saleDate: string,
    name: string,
    quantitySold: real,
    salePrice: real,
    adjustedTotalReceived: real)

  function Row(sale: Sale): SaleRow {
    SaleRow(sale.saleDate, sale.name, sale.quantitySold, sale.salePrice, AdjustedTotalReceived(sale))
  }

  /** `salesData.map(...)`: one row per sale, in order, showing the sale's
      own date, product, quantity and price and the seller's share. */
  function Rows(sales: seq<Sale>): (rows: seq<SaleRow>)
    ensures |rows| == |sales|
    ensures forall i :: 0 <= i < |sales| ==>
              && rows[i].saleDate == sales[i].saleDate && rows[i].name == sales[i].name
              && rows[i].quantitySold == sales[i].quantitySold && rows[i].salePrice == sales[i].salePrice
              && rows[i].adjustedTotalReceived == TotalMoney.YourShare(sales[i])
  {
    seq(|sales|, i requires 0 <= i < |sales| => Row(sales[i]))
  }

  /** The table keeps the input order: the rows of a concatenation are the
      rows of the parts, one row per sale. */
  lemma RowsAppend(a: seq<Sale>, b: seq<Sale>)
    ensures |Rows(a + b)| == |a| + |b|
    ensures Rows(a + b) == Rows(a) + Rows(b)
  {
  }

  /** 100 percent leaves the seller nothing; no percentage leaves the amount
      received unchanged. */
  lemma AdjustedExtremes(sale: Sale)
    ensures sale.businessPercentage == Some(100.0) ==> AdjustedTotalReceived(sale) == 0.0
    ensures !HasBusinessPercentage(sale) ==> AdjustedTotalReceived(sale) == TotalReceived(sale)
  {
  }

  /** With a percentage in [0, 100] the adjusted amount lies between 0 and
      the amount received. */
  lemma AdjustedBounds(sale: Sale)
    requires 0.0 <= Percentage(sale) <= 100.0
    requires TotalReceived(sale) >= 0.0
    ensures 0.0 <= AdjustedTotalReceived(sale) <= TotalReceived(sale)
  {
    TotalMoney.ConsignmentShareBounds(sale);
  }

  /** Sum of the table's last column. */
  function SumAdjusted(rows: seq<SaleRow>): real
    decreases |rows|
  {
    if rows == [] then 0.0 else rows[0].adjustedTotalReceived + SumAdjusted(rows[1..])
  }

  /** Total cost of making the items sold. */
  function SumCost(sales: seq<Sale>): real
    decreases |sales|
  {
    if sales == [] then 0.0 else TotalMoney.CostToMake(sales[0]) + SumCost(sales[1..])
  }

  /** The two dashboard components agree: the Total Money card shows the sum
      of the table's "Total Received" column minus the cost of making the
      items sold. */
  lemma {:induction false} TotalMatchesTable(sales: seq<Sale>)
    ensures TotalMoney.Total(sales) == SumAdjusted(Rows(sales)) - SumCost(sales)
  {
    SumsAgree(sales);
  }

  lemma {:induction false} SumsAgree(sales: seq<Sale>)
    ensures TotalMoney.SumProfits(sales) == SumAdjusted(Rows(sales)) - SumCost(sales)
    decreases |sales|
  {
    if sales != [] {
      assert Rows(sales)[1..] == Rows(sales[1..]);
      SumsAgree(sales[1..]);
    }
  }
}
