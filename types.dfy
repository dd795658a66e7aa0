/** The record shapes shared by the dashboard (types.ts). Money is an exact
    `real`, a quantity an `int` (the response schema asks for an integer),
    a date the `YYYY-MM-DD` string the application stores. */
module Types {

  datatype Option<+T> = None | Some(value: T)

  /** One completed sale. `pricePerItem` is optional: the seeded sales do
      not carry it, sales logged from a recommendation do. */
  datatype Transaction = Transaction(
    item: string,
    quantity: int,
    totalSale: real,
    pricePerItem: Option<real>,
    date: string)

  datatype PriceListItem = PriceListItem(item: string, price: real)

  /** The `transaction` part of a recommendation: the model's parse of the transcript. */
  datatype ParsedTransaction = ParsedTransaction(
    item: string,
    quantity: int,
    pricePerItem: real,
    totalSale: real)

  datatype Recommendation = Recommendation(
    recommendedPrice: real,
    reasoning: string,
    spokenRecommendation: string)

  datatype AiResponse = AiResponse(transaction: ParsedTransaction, recommendation: Recommendation)

  datatype HistoryItem = HistoryItem(id: int, userQuery: string, aiResponse: AiResponse)

  datatype RoiDataPoint = RoiDataPoint(date: string, currentProfit: int, projectedProfit: int)

  /** The sum of `totalSale` over a list of sales. */
  function TotalSales(sales: seq<Transaction>): real
  {
    if sales == [] then 0.0 else sales[0].totalSale + TotalSales(sales[1..])
  }

  /** The sum of `quantity` over a list of sales. */
  function TotalQuantity(sales: seq<Transaction>): int
  {
    if sales == [] then 0 else sales[0].quantity + TotalQuantity(sales[1..])
  }

  /** Adding one sale at the end adds its amount and its quantity to the sums. */
  lemma {:induction false} TotalsSnoc(sales: seq<Transaction>, t: Transaction)
    ensures TotalSales(sales + [t]) == TotalSales(sales) + t.totalSale
    ensures TotalQuantity(sales + [t]) == TotalQuantity(sales) + t.quantity
  {
    if sales != [] {
      assert (sales + [t])[1..] == sales[1..] + [t];
      TotalsSnoc(sales[1..], t);
    }
  }
}
