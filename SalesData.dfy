/** The entities of the sales dataset, the per-seller accumulator and the
    output record. Amounts of money are integers in cents. */
module SalesData {
  import opened Wrappers

  type SellerId = string
  type Sku = string

  datatype Seller = Seller(id: SellerId, firstName: string, lastName: string)

  /** A product card; `purchasePrice` is the unit cost in cents. */
  datatype Product = Product(sku: Sku, purchasePrice: int)

  /** One line of a receipt: `salePrice` in cents, `discount` in whole percent. */
  datatype PurchaseItem = PurchaseItem(sku: Sku, quantity: int, salePrice: int, discount: int)

  datatype PurchaseRecord = PurchaseRecord(sellerId: SellerId, items: seq<PurchaseItem>)

  /** The dataset handed to the analyzer. A field that is missing or is not an
      array is `None`. */
  datatype Dataset = Dataset(
    sellers: Option<seq<Seller>>,
    products: Option<seq<Product>>,
    purchaseRecords: Option<seq<PurchaseRecord>>)

  /** One `{sku, quantity}` entry of a seller's top products. */
  datatype TopProduct = TopProduct(sku: Sku, quantity: int)

  /** The mutable per-seller accumulator. `bonus` and `topProducts` are the
      fields that the ranking stage adds to the object afterwards; they are
      `None` until then. */
  datatype SellerStat = SellerStat(
    id: SellerId,
    name: string,
    revenue: int,
    profit: int,
    salesCount: nat,
    productsSold: map<Sku, int>,
    bonus: Option<int>,
    topProducts: Option<seq<TopProduct>>)

  /** The record the analyzer returns for one seller. */
  datatype SellerResult = SellerResult(
    sellerId: SellerId,
    name: string,
    revenue: int,
    profit: int,
    salesCount: nat,
    topProducts: seq<TopProduct>,
    bonus: int)

  /** `calculateRevenue(item, product)`: the revenue of one line, in cents. */
  type RevenueFn = (PurchaseItem, Product) -> int

  /** `calculateBonus(index, total, seller)`: the bonus of the seller ranked
      `index` among `total`, in cents. */
  type BonusFn = (nat, nat, SellerStat) -> int

  /** The options object; a strategy that is missing or not a function is `None`. */
  datatype Options = Options(calculateRevenue: Option<RevenueFn>, calculateBonus: Option<BonusFn>)

  datatype AnalysisError =
    | InvalidData     // the dataset or one of its three arrays is missing or empty
    | MissingOption   // the options object or one of its two strategies is missing
}
