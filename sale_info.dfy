/** A sale as the dashboard receives it from `getAllSalesInfo`, with the
    arithmetic both dashboard components share. Money is exact `real`. */
module SaleInfo {
  import opened Wrappers

  /** `businessPercentage` is `None` (null) for a direct sale. */
  datatype Sale = Sale(
    saleDate: string,
    name: string,
    quantitySold: real,
    salePrice: real,
    cost: real,
    businessPercentage: Option<real>)

  /** `sale.businessPercentage ? ... : ...`: null and 0 are falsy, every
      other percentage, negative ones included, is truthy. */
  predicate HasBusinessPercentage(sale: Sale)
    ensures HasBusinessPercentage(sale) ==> sale.businessPercentage.Some?
    ensures sale.businessPercentage == Some(0.0) ==> !HasBusinessPercentage(sale)
    ensures sale.businessPercentage.Some? && sale.businessPercentage.value != 0.0 ==> HasBusinessPercentage(sale)
  {
    sale.businessPercentage.Some? && sale.businessPercentage.value != 0.0
  }

  /** The percentage a truthy test lets through, and 0 otherwise. */
  function Percentage(sale: Sale): real {
    if HasBusinessPercentage(sale) then sale.businessPercentage.value else 0.0
  }

  /** The amount received: quantity sold times sale price, never negative
      for a non-negative quantity and price. */
  function TotalReceived(sale: Sale): (amount: real)
    ensures sale.quantitySold >= 0.0 && sale.salePrice >= 0.0 ==> amount >= 0.0
  {
    sale.quantitySold * sale.salePrice
  }
}
