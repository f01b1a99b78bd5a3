/** What the analyzer computes, stated independently of its loops: the two
    lookup tables, the closed forms of every accumulated statistic and the
    properties of a top-products list. */
module SalesSpec {
  import opened Wrappers
  import opened SalesData

  // ---------------------------------------------------------------- indexing

  function SellerIds(sellers: seq<Seller>): set<SellerId> {
    set s | s in sellers :: s.id
  }

  /** No two sellers share an id. */
  predicate UniqueIds(sellers: seq<Seller>) {
    forall i, j :: 0 <= i < j < |sellers| ==> sellers[i].id != sellers[j].id
  }

  /** The seller index: each seller id to the position of its accumulator. */
  function PositionIndex(sellers: seq<Seller>): (index: map<SellerId, nat>)
    ensures index.Keys == SellerIds(sellers)
    ensures forall id :: id in index ==> index[id] < |sellers| && sellers[index[id]].id == id
  {
    if |sellers| == 0 then map[]
    else
      var init := sellers[..|sellers| - 1];
      assert sellers == init + [sellers[|sellers| - 1]];
      PositionIndex(init)[sellers[|sellers| - 1].id := |sellers| - 1]
  }

  function ProductSkus(products: seq<Product>): set<Sku> {
    set p | p in products :: p.sku
  }

  /** No product after position i has the sku of the product at i. */
  ghost predicate LastWithSku(products: seq<Product>, i: int)
    requires 0 <= i < |products|
  {
    forall j :: i < j < |products| ==> products[j].sku != products[i].sku
  }

  /** The product index, sku to product card; of two cards with one sku the
      later one wins, as with `Object.fromEntries`. */
  function ProductIndex(products: seq<Product>): (index: map<Sku, Product>)
    ensures index.Keys == ProductSkus(products)
    ensures forall sku :: sku in index ==> index[sku].sku == sku && index[sku] in products
    ensures forall i :: 0 <= i < |products| && LastWithSku(products, i) ==> index[products[i].sku] == products[i]
  {
    if |products| == 0 then map[]
    else
      var init, last := products[..|products| - 1], products[|products| - 1];
      assert products == init + [last];
      var index := ProductIndex(init)[last.sku := last];
      assert forall i :: 0 <= i < |init| && LastWithSku(products, i) ==> LastWithSku(init, i);
      index
  }

  // ---------------------------------------------------------- accumulation

  /** The number of purchase records made by seller `id`. */
  function CountRecords(records: seq<PurchaseRecord>, id: SellerId): nat {
    if |records| == 0 then 0
    else
      CountRecords(records[..|records| - 1], id)
      + (if records[|records| - 1].sellerId == id then 1 else 0)
  }

  /** All items of the records made by seller `id`, in record order. */
  function SellerItems(records: seq<PurchaseRecord>, id: SellerId): seq<PurchaseItem> {
    if |records| == 0 then []
    else
      SellerItems(records[..|records| - 1], id)
      + (if records[|records| - 1].sellerId == id then records[|records| - 1].items else [])
  }

  /** The sum of `calculateRevenue(item, product)` over the items with a known sku. */
  function Revenue(items: seq<PurchaseItem>, products: map<Sku, Product>, calculateRevenue: RevenueFn): int {
    if |items| == 0 then 0
    else
      var last := items[|items| - 1];
      Revenue(items[..|items| - 1], products, calculateRevenue)
      + (if last.sku in products then calculateRevenue(last, products[last.sku]) else 0)
  }

  /** The sum of purchase price times quantity over the items with a known sku. */
  function Cost(items: seq<PurchaseItem>, products: map<Sku, Product>): int {
    if |items| == 0 then 0
    else
      var last := items[|items| - 1];
      Cost(items[..|items| - 1], products)
      + (if last.sku in products then products[last.sku].purchasePrice * last.quantity else 0)
  }

  /** The sum over the items with a known sku of the line's revenue less its cost. */
  function Profit(items: seq<PurchaseItem>, products: map<Sku, Product>, calculateRevenue: RevenueFn): int {
    if |items| == 0 then 0
    else
      var last := items[|items| - 1];
      Profit(items[..|items| - 1], products, calculateRevenue)
      + (if last.sku in products
         then calculateRevenue(last, products[last.sku]) - products[last.sku].purchasePrice * last.quantity
         else 0)
  }

  function SkusOf(items: seq<PurchaseItem>): set<Sku> {
    set it | it in items :: it.sku
  }

  /** The total quantity of the items with sku `sku`. */
  function QuantitySum(items: seq<PurchaseItem>, sku: Sku): int {
    if |items| == 0 then 0
    else
      QuantitySum(items[..|items| - 1], sku)
      + (if items[|items| - 1].sku == sku then items[|items| - 1].quantity else 0)
  }

  /** `products_sold`: every known sku that occurs among the items, with its
      total quantity. */
  function Sold(items: seq<PurchaseItem>, products: map<Sku, Product>): map<Sku, int> {
    map sku | sku in SkusOf(items) && sku in products :: QuantitySum(items, sku)
  }

  /** The display name, first and last name joined by a space. */
  function DisplayName(seller: Seller): (r: string)
    ensures |r| == |seller.firstName| + 1 + |seller.lastName|
    ensures r[..|seller.firstName|] == seller.firstName
    ensures r[|seller.firstName|] == ' '
    ensures r[|seller.firstName| + 1..] == seller.lastName
  {
    seller.firstName + " " + seller.lastName
  }

  /** The accumulator of a seller before any record is seen. */
  function InitialStat(seller: Seller): (r: SellerStat)
    ensures r.id == seller.id && r.name == DisplayName(seller)
    ensures r.revenue == 0 && r.profit == 0 && r.salesCount == 0 && r.productsSold == map[]
    ensures r.bonus.None? && r.topProducts.None?
  {
    SellerStat(seller.id, DisplayName(seller), 0, 0, 0, map[], None, None)
  }

  /** The accumulator of a seller with `count` records holding `items`. */
  function StatOver(seller: Seller, count: nat, items: seq<PurchaseItem>,
                    products: map<Sku, Product>, calculateRevenue: RevenueFn): SellerStat {
    SellerStat(seller.id, DisplayName(seller), Revenue(items, products, calculateRevenue),
               Profit(items, products, calculateRevenue), count, Sold(items, products), None, None)
  }

  /** The accumulator of a seller once all of `records` have been seen. */
  function AccumulatedStat(seller: Seller, products: map<Sku, Product>,
                           records: seq<PurchaseRecord>, calculateRevenue: RevenueFn): SellerStat {
    StatOver(seller, CountRecords(records, seller.id), SellerItems(records, seller.id), products, calculateRevenue)
  }

  // ----------------------------------------------------- top products lists

  function TopSkus(top: seq<TopProduct>): set<Sku> {
    set e | e in top :: e.sku
  }

  predicate NoDuplicateSkus(top: seq<TopProduct>) {
    forall j, l :: 0 <= j < l < |top| ==> top[j].sku != top[l].sku
  }

  /** `top` is a valid top-products list of `sold`: at most ten distinct
      entries `(sku, sold[sku])` by non-increasing quantity, and every sku
      left out sold no more than any listed one (so nothing is left out when
      fewer than ten are listed). */
  ghost predicate IsTopProducts(top: seq<TopProduct>, sold: map<Sku, int>) {
    && |top| <= 10
    && NoDuplicateSkus(top)
    && (forall j :: 0 <= j < |top| ==> top[j].sku in sold && top[j].quantity == sold[top[j].sku])
    && (forall j, l :: 0 <= j < l < |top| ==> top[j].quantity >= top[l].quantity)
    && (forall sku :: sku in sold && sku !in TopSkus(top) ==>
          |top| == 10 && forall j :: 0 <= j < |top| ==> top[j].quantity >= sold[sku])
  }

  // ----------------------------------------------------------------- lemmas

  /** A seller's profit is its revenue less the cost of the goods it sold. */
  lemma {:induction false} ProfitIsRevenueMinusCost(items: seq<PurchaseItem>, products: map<Sku, Product>,
                                                    calculateRevenue: RevenueFn)
    ensures Profit(items, products, calculateRevenue)
         == Revenue(items, products, calculateRevenue) - Cost(items, products)
  {
    if |items| > 0 {
      ProfitIsRevenueMinusCost(items[..|items| - 1], products, calculateRevenue);
    }
  }

  lemma {:induction false} QuantitySumAbsent(items: seq<PurchaseItem>, sku: Sku)
    requires sku !in SkusOf(items)
    ensures QuantitySum(items, sku) == 0
  {
    if |items| > 0 {
      var init := items[..|items| - 1];
      assert items == init + [items[|items| - 1]];
      assert SkusOf(init) <= SkusOf(items);
      QuantitySumAbsent(init, sku);
    }
  }

  /** One more item updates `products_sold` as the accumulation loop does:
      a known sku gets its entry created at zero if absent, then increased by
      the quantity; an unknown sku changes nothing. */
  lemma SoldAppend(items: seq<PurchaseItem>, item: PurchaseItem, products: map<Sku, Product>)
    ensures (var sold := Sold(items, products);
             Sold(items + [item], products)
             == if item.sku in products
                then sold[item.sku := (if item.sku in sold then sold[item.sku] else 0) + item.quantity]
                else sold)
  {
    var longer := items + [item];
    assert longer[..|items|] == items;
    assert SkusOf(longer) == SkusOf(items) + {item.sku};
    var sold := Sold(items, products);
    var after := Sold(longer, products);
    if item.sku in products {
      if item.sku !in SkusOf(items) {
        QuantitySumAbsent(items, item.sku);
      }
      var expected := sold[item.sku := (if item.sku in sold then sold[item.sku] else 0) + item.quantity];
      assert after.Keys == expected.Keys;
      forall sku | sku in after ensures after[sku] == expected[sku] {
        assert after[sku] == QuantitySum(longer, sku);
      }
    } else {
      assert after.Keys == sold.Keys;
      forall sku | sku in after ensures after[sku] == sold[sku] {
        assert after[sku] == QuantitySum(longer, sku);
      }
    }
  }

  /** One more item changes the accumulator as the body of the item loop
      does: a known sku adds the line's revenue, its revenue less its cost,
      and its quantity under the sku; an unknown sku changes nothing. */
  lemma StatOverAppend(seller: Seller, count: nat, items: seq<PurchaseItem>, item: PurchaseItem,
                       products: map<Sku, Product>, calculateRevenue: RevenueFn)
    ensures (var st := StatOver(seller, count, items, products, calculateRevenue);
             StatOver(seller, count, items + [item], products, calculateRevenue)
             == if item.sku in products then
                  var product := products[item.sku];
                  var revenue := calculateRevenue(item, product);
                  var sold := if item.sku !in st.productsSold then st.productsSold[item.sku := 0] else st.productsSold;
                  st.(revenue := st.revenue + revenue,
                      profit := st.profit + (revenue - product.purchasePrice * item.quantity),
                      productsSold := sold[item.sku := sold[item.sku] + item.quantity])
                else st)
  {
    assert (items + [item])[..|items|] == items;
    SoldAppend(items, item, products);
  }

  /** The accumulator before any record is the accumulation over no record. */
  lemma InitialIsEmptyAccumulation(seller: Seller, products: map<Sku, Product>, calculateRevenue: RevenueFn)
    ensures InitialStat(seller) == AccumulatedStat(seller, products, [], calculateRevenue)
  {
    assert Sold([], products) == map[];
  }

  /** A record by a seller that is not `seller` leaves its accumulator as it was. */
  lemma OtherSellerRecordIgnored(seller: Seller, products: map<Sku, Product>, records: seq<PurchaseRecord>,
                                 record: PurchaseRecord, calculateRevenue: RevenueFn)
    requires record.sellerId != seller.id
    ensures AccumulatedStat(seller, products, records + [record], calculateRevenue)
         == AccumulatedStat(seller, products, records, calculateRevenue)
  {
    assert (records + [record])[..|records|] == records;
    var before := SellerItems(records, seller.id);
    assert before + [] == before;
    assert SellerItems(records + [record], seller.id) == before;
  }

  /** A record whose seller id is unknown changes no seller's accumulator. */
  lemma UnknownSellerRecordIgnored(sellers: seq<Seller>, products: map<Sku, Product>, records: seq<PurchaseRecord>,
                                   record: PurchaseRecord, calculateRevenue: RevenueFn)
    requires record.sellerId !in SellerIds(sellers)
    ensures forall i :: 0 <= i < |sellers| ==>
                (AccumulatedStat(sellers[i], products, records + [record], calculateRevenue)
                 == AccumulatedStat(sellers[i], products, records, calculateRevenue))
  {
    forall i | 0 <= i < |sellers|
      ensures AccumulatedStat(sellers[i], products, records + [record], calculateRevenue)
           == AccumulatedStat(sellers[i], products, records, calculateRevenue)
    {
      assert sellers[i] in sellers;
      OtherSellerRecordIgnored(sellers[i], products, records, record, calculateRevenue);
    }
  }

  /** An item with an unknown sku leaves revenue, profit and `products_sold`
      as they were, while its record still counts as one sale. */
  lemma UnknownSkuIgnored(seller: Seller, products: map<Sku, Product>, records: seq<PurchaseRecord>,
                          items: seq<PurchaseItem>, item: PurchaseItem, calculateRevenue: RevenueFn)
    requires item.sku !in products
    ensures var with := AccumulatedStat(seller, products, records + [PurchaseRecord(seller.id, items + [item])], calculateRevenue);
            var without := AccumulatedStat(seller, products, records + [PurchaseRecord(seller.id, items)], calculateRevenue);
            with == without && with.salesCount == CountRecords(records, seller.id) + 1
  {
    var r1 := records + [PurchaseRecord(seller.id, items + [item])];
    var r2 := records + [PurchaseRecord(seller.id, items)];
    assert r1[..|records|] == records && r2[..|records|] == records;
    var before := SellerItems(records, seller.id);
    assert SellerItems(r1, seller.id) == (before + items) + [item];
    assert SellerItems(r2, seller.id) == before + items;
    assert ((before + items) + [item])[..|before + items|] == before + items;
    SoldAppend(before + items, item, products);
  }

  /** A record with no items counts as one sale and changes nothing else. */
  lemma EmptyRecordCounts(seller: Seller, products: map<Sku, Product>, records: seq<PurchaseRecord>,
                          calculateRevenue: RevenueFn)
    ensures (var before := AccumulatedStat(seller, products, records, calculateRevenue);
             AccumulatedStat(seller, products, records + [PurchaseRecord(seller.id, [])], calculateRevenue)
             == before.(salesCount := before.salesCount + 1))
  {
    var longer := records + [PurchaseRecord(seller.id, [])];
    assert longer[..|records|] == records;
    var before := SellerItems(records, seller.id);
    assert before + [] == before;
    assert SellerItems(longer, seller.id) == before;
  }

  /** When every quantity is positive, so is every `products_sold` entry. */
  lemma {:induction false} SoldPositive(items: seq<PurchaseItem>, products: map<Sku, Product>, sku: Sku)
    requires forall j :: 0 <= j < |items| ==> items[j].quantity >= 1
    requires sku in Sold(items, products)
    ensures Sold(items, products)[sku] >= 1
  {
    var init, last := items[..|items| - 1], items[|items| - 1];
    assert items == init + [last];
    SoldAppend(init, last, products);
    if last.sku != sku {
      SoldPositive(init, products, sku);
    } else if sku in Sold(init, products) {
      SoldPositive(init, products, sku);
    }
  }

  /** Every item of a seller's records comes from some record, so when all
      quantities of all records are positive, so are those of the seller's items. */
  lemma {:induction false} SellerItemsPositive(records: seq<PurchaseRecord>, id: SellerId)
    requires forall r, j :: 0 <= r < |records| && 0 <= j < |records[r].items| ==> records[r].items[j].quantity >= 1
    ensures forall j :: 0 <= j < |SellerItems(records, id)| ==> SellerItems(records, id)[j].quantity >= 1
  {
    if |records| > 0 {
      var init, last := records[..|records| - 1], records[|records| - 1];
      SellerItemsPositive(init, id);
      var before := SellerItems(init, id);
      var added := if last.sellerId == id then last.items else [];
      assert SellerItems(records, id) == before + added;
      forall j | 0 <= j < |added| ensures added[j].quantity >= 1 {
        assert last.items[j] == records[|records| - 1].items[j];
      }
    }
  }

  // ----------------------------------------------- total of the sales counts

  /** The number of sellers whose id is `id`. */
  function SellersWithId(sellers: seq<Seller>, id: SellerId): nat {
    if |sellers| == 0 then 0
    else SellersWithId(sellers[..|sellers| - 1], id) + (if sellers[|sellers| - 1].id == id then 1 else 0)
  }

  /** The sum of the sales counts of all sellers. */
  function TotalSalesCount(sellers: seq<Seller>, records: seq<PurchaseRecord>): nat {
    if |sellers| == 0 then 0
    else TotalSalesCount(sellers[..|sellers| - 1], records) + CountRecords(records, sellers[|sellers| - 1].id)
  }

  /** The number of records whose seller id is in `ids`. */
  function ResolvedRecords(records: seq<PurchaseRecord>, ids: set<SellerId>): nat {
    if |records| == 0 then 0
    else ResolvedRecords(records[..|records| - 1], ids) + (if records[|records| - 1].sellerId in ids then 1 else 0)
  }

  lemma {:induction false} SellersWithIdUnique(sellers: seq<Seller>, id: SellerId)
    requires UniqueIds(sellers)
    ensures SellersWithId(sellers, id) == if id in SellerIds(sellers) then 1 else 0
  {
    if |sellers| > 0 {
      var init, last := sellers[..|sellers| - 1], sellers[|sellers| - 1];
      assert sellers == init + [last];
      assert SellerIds(sellers) == SellerIds(init) + {last.id};
      SellersWithIdUnique(init, id);
    }
  }

  lemma {:induction false} TotalSalesCountAppend(sellers: seq<Seller>, records: seq<PurchaseRecord>, record: PurchaseRecord)
    ensures TotalSalesCount(sellers, records + [record])
         == TotalSalesCount(sellers, records) + SellersWithId(sellers, record.sellerId)
  {
    assert (records + [record])[..|records|] == records;
    if |sellers| > 0 {
      TotalSalesCountAppend(sellers[..|sellers| - 1], records, record);
    }
  }

  /** With unique seller ids the sales counts add up to the number of
      records whose seller is known; so they never exceed the number of
      records, and equal it exactly when every record's seller is known. */
  lemma {:induction false} SalesCountsAddUp(sellers: seq<Seller>, records: seq<PurchaseRecord>)
    requires UniqueIds(sellers)
    ensures TotalSalesCount(sellers, records) == ResolvedRecords(records, SellerIds(sellers))
    ensures TotalSalesCount(sellers, records) <= |records|
    ensures TotalSalesCount(sellers, records) == |records|
        <==> forall j :: 0 <= j < |records| ==> records[j].sellerId in SellerIds(sellers)
  {
    if |records| == 0 {
      assert TotalSalesCount(sellers, records) == 0 by { TotalSalesCountNoRecords(sellers); }
    } else {
      var init, last := records[..|records| - 1], records[|records| - 1];
      assert records == init + [last];
      SalesCountsAddUp(sellers, init);
      TotalSalesCountAppend(sellers, init, last);
      SellersWithIdUnique(sellers, last.sellerId);
      if TotalSalesCount(sellers, records) == |records| {
        forall j | 0 <= j < |records| ensures records[j].sellerId in SellerIds(sellers) {
          if j < |init| { assert records[j] == init[j]; }
        }
      }
    }
  }

  lemma {:induction false} TotalSalesCountNoRecords(sellers: seq<Seller>)
    ensures TotalSalesCount(sellers, []) == 0
  {
    if |sellers| > 0 {
      TotalSalesCountNoRecords(sellers[..|sellers| - 1]);
    }
  }
}
