/** `analyzeSalesData`: validate the input, build the two lookup tables,
    accumulate per-seller statistics over the purchase records, rank the
    sellers by profit, assign bonuses and top products, and project each
    accumulator into an output record. */
module SalesAnalyzer {
  import opened Wrappers
  import opened SalesData
  import opened SalesSpec
  import opened ProductRanking

  /** The validated input: the three arrays and the two strategies. */
  datatype Input = Input(
    sellers: seq<Seller>,
    products: seq<Product>,
    purchaseRecords: seq<PurchaseRecord>,
    calculateRevenue: RevenueFn,
    calculateBonus: BonusFn)

  /** The dataset is present and its three arrays are present and non-empty. */
  predicate WellFormedData(data: Option<Dataset>) {
    && data.Some?
    && data.value.sellers.Some? && |data.value.sellers.value| > 0
    && data.value.products.Some? && |data.value.products.value| > 0
    && data.value.purchaseRecords.Some? && |data.value.purchaseRecords.value| > 0
  }

  /** The two checks that start the analysis; the check of the data comes first. */
  function Validate(data: Option<Dataset>, options: Option<Options>): (r: Result<Input, AnalysisError>)
    ensures r == Err(InvalidData) <==> !WellFormedData(data)
    ensures r == Err(MissingOption) <==>
              WellFormedData(data)
              && (options.None? || options.value.calculateRevenue.None? || options.value.calculateBonus.None?)
    ensures r.Ok? ==> && r.value.sellers == data.value.sellers.value
                      && r.value.products == data.value.products.value
                      && r.value.purchaseRecords == data.value.purchaseRecords.value
                      && Some(r.value.calculateRevenue) == options.value.calculateRevenue
                      && Some(r.value.calculateBonus) == options.value.calculateBonus
  {
    if || data.None?
       || data.value.sellers.None?
       || data.value.products.None?
       || data.value.purchaseRecords.None?
       || |data.value.sellers.value| == 0
       || |data.value.products.value| == 0
       || |data.value.purchaseRecords.value| == 0
    then Err(InvalidData)
    else if options.None? then Err(MissingOption)
    else if options.value.calculateRevenue.None? || options.value.calculateBonus.None? then Err(MissingOption)
    else
      var d, o := data.value, options.value;
      Ok(Input(d.sellers.value, d.products.value, d.purchaseRecords.value,
               o.calculateRevenue.value, o.calculateBonus.value))
  }

  /** Walks the purchase records and their items, updating the accumulator of
      the record's seller in place. A record of an unknown seller and an item
      of an unknown sku are skipped. Money is in cents, so the rounding of the
      sums to two decimals changes nothing. */
  method Accumulate(stats: array<SellerStat>, sellers: seq<Seller>, sellerIndex: map<SellerId, nat>,
                    productIndex: map<Sku, Product>, records: seq<PurchaseRecord>,
                    calculateRevenue: RevenueFn)
    requires stats.Length == |sellers| && UniqueIds(sellers)
    requires sellerIndex == PositionIndex(sellers)
    requires forall i :: 0 <= i < stats.Length ==> stats[i] == InitialStat(sellers[i])
    modifies stats
    ensures forall i :: 0 <= i < stats.Length ==>
              stats[i] == AccumulatedStat(sellers[i], productIndex, records, calculateRevenue)
  {
    forall i | 0 <= i < stats.Length
      ensures stats[i] == AccumulatedStat(sellers[i], productIndex, records[..0], calculateRevenue)
    {
      InitialIsEmptyAccumulation(sellers[i], productIndex, calculateRevenue);
    }
    var k := 0;
    ghost var seen := records[..0];
    while k < |records|
      invariant 0 <= k <= |records| && seen == records[..k]
      invariant forall i :: 0 <= i < stats.Length ==>
                  stats[i] == AccumulatedStat(sellers[i], productIndex, seen, calculateRevenue)
    {
      var record := records[k];
      if record.sellerId in sellerIndex {
        var j := sellerIndex[record.sellerId];
        AccumulateRecord(stats, sellers, j, productIndex, seen, record, calculateRevenue);
      } else {
        UnknownSellerRecordIgnored(sellers, productIndex, seen, record, calculateRevenue);
      }
      assert records[..k + 1] == seen + [record];
      seen := seen + [record];
      k := k + 1;
    }
    assert seen == records;
  }

  /** The body of the outer loop for a record whose seller sits at position
      `j`: one more sale, then every item of the record. */
  method AccumulateRecord(stats: array<SellerStat>, sellers: seq<Seller>, j: nat,
                          productIndex: map<Sku, Product>, ghost seen: seq<PurchaseRecord>,
                          record: PurchaseRecord, calculateRevenue: RevenueFn)
    requires stats.Length == |sellers| && UniqueIds(sellers)
    requires j < |sellers| && sellers[j].id == record.sellerId
    requires forall i :: 0 <= i < stats.Length ==>
               stats[i] == AccumulatedStat(sellers[i], productIndex, seen, calculateRevenue)
    modifies stats
    ensures forall i :: 0 <= i < stats.Length ==>
              stats[i] == AccumulatedStat(sellers[i], productIndex, seen + [record], calculateRevenue)
  {
    var seller := sellers[j];
    var all := seen + [record];
    assert all[..|seen|] == seen;
    ghost var before := SellerItems(seen, seller.id);
    ghost var count := CountRecords(all, seller.id);
    stats[j] := stats[j].(salesCount := stats[j].salesCount + 1);
    var items := record.items;
    var m := 0;
    assert before + items[..0] == before;
    while m < |items|
      invariant 0 <= m <= |items|
      invariant stats[j] == StatOver(seller, count, before + items[..m], productIndex, calculateRevenue)
      invariant forall i :: 0 <= i < stats.Length && i != j ==> stats[i] == old(stats[i])
    {
      assert before + items[..m + 1] == (before + items[..m]) + [items[m]];
      AccumulateItem(stats, j, items[m], productIndex, calculateRevenue, seller, count, before + items[..m]);
      m := m + 1;
    }
    assert items[..|items|] == items;
    forall i | 0 <= i < stats.Length && i != j
      ensures stats[i] == AccumulatedStat(sellers[i], productIndex, all, calculateRevenue)
    {
      assert stats[i] == old(stats[i]);
      OtherSellerRecordIgnored(sellers[i], productIndex, seen, record, calculateRevenue);
    }
  }

  /** The body of the inner loop: an item of a known sku adds its revenue,
      its profit and its quantity to the accumulator at position j. */
  method AccumulateItem(stats: array<SellerStat>, j: nat, item: PurchaseItem,
                        productIndex: map<Sku, Product>, calculateRevenue: RevenueFn,
                        ghost seller: Seller, ghost count: nat, ghost done: seq<PurchaseItem>)
    requires j < stats.Length
    requires stats[j] == StatOver(seller, count, done, productIndex, calculateRevenue)
    modifies stats
    ensures stats[j] == StatOver(seller, count, done + [item], productIndex, calculateRevenue)
    ensures forall i :: 0 <= i < stats.Length && i != j ==> stats[i] == old(stats[i])
  {
    StatOverAppend(seller, count, done, item, productIndex, calculateRevenue);
    ghost var next := StatOver(seller, count, done + [item], productIndex, calculateRevenue);
    if item.sku in productIndex {
      var product := productIndex[item.sku];
      var cost := product.purchasePrice * item.quantity;
      var revenue := calculateRevenue(item, product);
      var profit := revenue - cost;
      var sold := stats[j].productsSold;
      if item.sku !in sold {
        sold := sold[item.sku := 0];
      }
      sold := sold[item.sku := sold[item.sku] + item.quantity];
      stats[j] := stats[j].(revenue := stats[j].revenue + revenue,
                            profit := stats[j].profit + profit,
                            productsSold := sold);
      assert stats[j].revenue == next.revenue;
      assert stats[j].profit == next.profit;
      assert stats[j].productsSold == next.productsSold;
    }
  }

  /** `perm` lists each of 0 .. n-1 exactly once. */
  ghost predicate IsPermutation(perm: seq<nat>, n: nat) {
    && |perm| == n
    && (forall k :: 0 <= k < n ==> perm[k] < n)
    && (forall k, l :: 0 <= k < l < n ==> perm[k] != perm[l])
  }

  /** In a stable sort by profit, largest first, the element x that came
      from input position p goes before the element y from q. */
  ghost predicate Precedes(x: SellerStat, p: nat, y: SellerStat, q: nat) {
    x.profit > y.profit || (x.profit == y.profit && p < q)
  }

  /** The outer loop's state: the first i positions are sorted, the rest is
      untouched, and position k holds the input element `orig[perm[k]]`. */
  ghost predicate SortedUpTo(s: seq<SellerStat>, perm: seq<nat>, orig: seq<SellerStat>, i: nat) {
    && |s| == |perm| == |orig| && i <= |s|
    && (forall k :: 0 <= k < |s| ==> perm[k] < |orig| && s[k] == orig[perm[k]])
    && (forall k :: i <= k < |s| ==> perm[k] == k)
    && (forall k :: 0 <= k < i ==> perm[k] < i)
    && (forall k, l :: 0 <= k < l < i ==> Precedes(s[k], perm[k], s[l], perm[l]))
  }

  /** The inner loop's state: the element from input position i is moving
      left and sits at j; without it the first i + 1 positions are sorted,
      and everything it has passed earns strictly less. */
  ghost predicate Inserting(s: seq<SellerStat>, perm: seq<nat>, orig: seq<SellerStat>, i: nat, j: nat) {
    && |s| == |perm| == |orig| && j <= i < |s|
    && (forall k :: 0 <= k < |s| ==> perm[k] < |orig| && s[k] == orig[perm[k]])
    && (forall k :: i < k < |s| ==> perm[k] == k)
    && perm[j] == i
    && (forall k :: 0 <= k <= i && k != j ==> perm[k] < i)
    && (forall k, l :: 0 <= k < l <= i && k != j && l != j ==> Precedes(s[k], perm[k], s[l], perm[l]))
    && (forall l :: j < l <= i ==> s[l].profit < s[j].profit)
  }

  function Swap<T>(s: seq<T>, k: nat): seq<T>
    requires k + 1 < |s|
  {
    s[k := s[k + 1]][k + 1 := s[k]]
  }

  lemma NothingSortedYet(s: seq<SellerStat>)
    ensures SortedUpTo(s, seq(|s|, k => k), s, 0)
  {
  }

  lemma StartInserting(s: seq<SellerStat>, perm: seq<nat>, orig: seq<SellerStat>, i: nat)
    requires SortedUpTo(s, perm, orig, i) && i < |s|
    ensures Inserting(s, perm, orig, i, i)
  {
  }

  /** One swap of the inner loop keeps its state. */
  lemma InsertStep(s: seq<SellerStat>, perm: seq<nat>, orig: seq<SellerStat>, i: nat, j: nat)
    requires Inserting(s, perm, orig, i, j) && 0 < j && s[j - 1].profit < s[j].profit
    ensures Inserting(Swap(s, j - 1), Swap(perm, j - 1), orig, i, j - 1)
  {
    var s', perm' := Swap(s, j - 1), Swap(perm, j - 1);
    forall k, l | 0 <= k < l <= i && k != j - 1 && l != j - 1
      ensures Precedes(s'[k], perm'[k], s'[l], perm'[l])
    {
      var k0 := if k == j then j - 1 else k;
      var l0 := if l == j then j - 1 else l;
      assert s'[k] == s[k0] && perm'[k] == perm[k0];
      assert s'[l] == s[l0] && perm'[l] == perm[l0];
    }
  }

  /** When the inner loop stops, one more position is sorted. */
  lemma InsertDone(s: seq<SellerStat>, perm: seq<nat>, orig: seq<SellerStat>, i: nat, j: nat)
    requires Inserting(s, perm, orig, i, j) && (j == 0 || s[j - 1].profit >= s[j].profit)
    ensures SortedUpTo(s, perm, orig, i + 1)
  {
    forall k, l | 0 <= k < l < i + 1 ensures Precedes(s[k], perm[k], s[l], perm[l]) {
      if l == j {
        if k < j - 1 {
          assert Precedes(s[k], perm[k], s[j - 1], perm[j - 1]);
        }
      }
    }
  }

  /** A fully sorted state is a stable sort by profit. */
  lemma SortedFully(s: seq<SellerStat>, perm: seq<nat>, orig: seq<SellerStat>)
    requires SortedUpTo(s, perm, orig, |s|)
    ensures IsPermutation(perm, |s|)
    ensures forall k :: 0 <= k < |s| ==> s[k] == orig[perm[k]]
    ensures forall k, l :: 0 <= k < l < |s| ==> s[k].profit >= s[l].profit
    ensures forall k, l :: 0 <= k < l < |s| && s[k].profit == s[l].profit ==> perm[k] < perm[l]
  {
    forall k, l | 0 <= k < l < |s| ensures perm[k] != perm[l] {
      assert Precedes(s[k], perm[k], s[l], perm[l]);
    }
  }

  /** `sellerStats.sort((a, b) => b.profit - a.profit)`: a stable in-place
      sort by profit, largest first. Position k ends up holding the element
      that was at `perm[k]`, and among equal profits `perm` keeps the input
      order. */
  method SortByProfit(a: array<SellerStat>) returns (ghost perm: seq<nat>)
    modifies a
    ensures IsPermutation(perm, a.Length)
    ensures forall k :: 0 <= k < a.Length ==> a[k] == old(a[perm[k]])
    ensures forall k, l :: 0 <= k < l < a.Length ==> a[k].profit >= a[l].profit
    ensures forall k, l :: 0 <= k < l < a.Length && a[k].profit == a[l].profit ==> perm[k] < perm[l]
  {
    ghost var orig := a[..];
    perm := seq(a.Length, k => k);
    NothingSortedYet(orig);
    var i := 0;
    while i < a.Length
      invariant i <= a.Length
      invariant SortedUpTo(a[..], perm, orig, i)
    {
      perm := InsertAt(a, i, perm, orig);
      i := i + 1;
    }
    SortedFully(a[..], perm, orig);
  }

  /** Moves the element at position i left past the elements of the sorted
      prefix that earn strictly less. */
  method InsertAt(a: array<SellerStat>, i: nat, ghost perm0: seq<nat>, ghost orig: seq<SellerStat>)
    returns (ghost perm: seq<nat>)
    requires SortedUpTo(a[..], perm0, orig, i) && i < a.Length
    modifies a
    ensures SortedUpTo(a[..], perm, orig, i + 1)
  {
    perm := perm0;
    StartInserting(a[..], perm, orig, i);
    var j: nat := i;
    while j > 0 && a[j - 1].profit < a[j].profit
      invariant Inserting(a[..], perm, orig, i, j)
    {
      InsertStep(a[..], perm, orig, i, j);
      ghost var swapped := Swap(a[..], j - 1);
      a[j - 1], a[j] := a[j], a[j - 1];
      assert a[..] == swapped;
      perm := Swap(perm, j - 1);
      j := j - 1;
    }
    InsertDone(a[..], perm, orig, i, j);
  }

  /** `sellerStats.forEach((seller, index) => ...)`: gives the seller at each
      rank its bonus, computed through the injected strategy on the
      accumulator as it stands, and its top products. */
  method AssignBonusesAndTopProducts(stats: array<SellerStat>, calculateBonus: BonusFn)
    modifies stats
    ensures forall k :: 0 <= k < stats.Length ==>
              && stats[k].bonus == Some(calculateBonus(k, stats.Length, old(stats[k])))
              && stats[k].topProducts.Some?
              && IsTopProducts(stats[k].topProducts.value, old(stats[k]).productsSold)
              && stats[k] == old(stats[k]).(bonus := stats[k].bonus, topProducts := stats[k].topProducts)
  {
    var index := 0;
    while index < stats.Length
      invariant 0 <= index <= stats.Length
      invariant forall k :: index <= k < stats.Length ==> stats[k] == old(stats[k])
      invariant forall k :: 0 <= k < index ==>
                  && stats[k].bonus == Some(calculateBonus(k, stats.Length, old(stats[k])))
                  && stats[k].topProducts.Some?
                  && IsTopProducts(stats[k].topProducts.value, old(stats[k]).productsSold)
                  && stats[k] == old(stats[k]).(bonus := stats[k].bonus, topProducts := stats[k].topProducts)
    {
      var seller := stats[index];
      var bonus := calculateBonus(index, stats.Length, seller);
      var top := TopProducts(seller.productsSold);
      stats[index] := seller.(bonus := Some(bonus), topProducts := Some(top));
      index := index + 1;
    }
  }

  /** The output record of a ranked accumulator. */
  function Project(seller: SellerStat): (r: SellerResult)
    requires seller.bonus.Some? && seller.topProducts.Some?
    ensures r.sellerId == seller.id && r.name == seller.name
    ensures r.revenue == seller.revenue && r.profit == seller.profit && r.salesCount == seller.salesCount
    ensures r.topProducts == seller.topProducts.value && r.bonus == seller.bonus.value
  {
    SellerResult(seller.id, seller.name, seller.revenue, seller.profit, seller.salesCount,
                 seller.topProducts.value, seller.bonus.value)
  }

  /** `result` reports, at rank `k`, the seller at input position `i` with
      the statistics accumulated over all records, the bonus the strategy
      gives that rank, and a top-products list of what the seller sold. */
  ghost predicate ReportsSeller(result: SellerResult, k: nat, input: Input, i: nat) {
    && i < |input.sellers|
    && var stat := AccumulatedStat(input.sellers[i], ProductIndex(input.products),
                                   input.purchaseRecords, input.calculateRevenue);
       && result.sellerId == stat.id
       && result.name == stat.name
       && result.revenue == stat.revenue
       && result.profit == stat.profit
       && result.salesCount == stat.salesCount
       && result.bonus == input.calculateBonus(k, |input.sellers|, stat)
       && IsTopProducts(result.topProducts, stat.productsSold)
  }

  /** The four stages after validation, on a validated input with unique
      seller ids. `ranking[k]` is the input position of the seller reported
      at rank k. */
  method Analyze(input: Input) returns (output: seq<SellerResult>, ghost ranking: seq<nat>)
    requires UniqueIds(input.sellers)
    ensures |output| == |input.sellers|
    ensures IsPermutation(ranking, |input.sellers|)
    ensures forall k :: 0 <= k < |output| ==> ReportsSeller(output[k], k, input, ranking[k])
    ensures forall k, l :: 0 <= k < l < |output| ==> output[k].profit >= output[l].profit
    ensures forall k, l :: 0 <= k < l < |output| && output[k].profit == output[l].profit
              ==> ranking[k] < ranking[l]
  {
    var sellers := input.sellers;
    var n := |sellers|;
    var sellerStats := new SellerStat[n](i requires 0 <= i < n => InitialStat(sellers[i]));
    var sellerIndex := PositionIndex(sellers);
    var productIndex := ProductIndex(input.products);
    Accumulate(sellerStats, sellers, sellerIndex, productIndex, input.purchaseRecords, input.calculateRevenue);
    ghost var accumulated := sellerStats[..];
    ranking := Rank(sellerStats, input.calculateBonus);
    var ranked := sellerStats[..];
    output := seq(n, k requires 0 <= k < n => Project(ranked[k]));
    OutputReportsSellers(input, accumulated, ranked, ranking, output);
  }

  /** The sort by profit followed by the assignment of bonuses and top
      products: position k ends up holding the accumulator that was at
      `perm[k]`, completed for rank k. */
  method Rank(sellerStats: array<SellerStat>, calculateBonus: BonusFn) returns (ghost perm: seq<nat>)
    modifies sellerStats
    ensures IsPermutation(perm, sellerStats.Length)
    ensures forall k :: 0 <= k < sellerStats.Length ==>
              RankedFrom(sellerStats[k], k, sellerStats.Length, old(sellerStats[perm[k]]), calculateBonus)
    ensures forall k, l :: 0 <= k < l < sellerStats.Length ==> sellerStats[k].profit >= sellerStats[l].profit
    ensures forall k, l :: 0 <= k < l < sellerStats.Length && sellerStats[k].profit == sellerStats[l].profit
              ==> perm[k] < perm[l]
  {
    perm := SortByProfit(sellerStats);
    AssignBonusesAndTopProducts(sellerStats, calculateBonus);
  }

  /** The accumulator `ranked` at rank k of n is `sorted` with the bonus and
      the top products filled in. */
  ghost predicate RankedFrom(ranked: SellerStat, k: nat, n: nat, sorted: SellerStat, calculateBonus: BonusFn) {
    && ranked.bonus == Some(calculateBonus(k, n, sorted))
    && ranked.topProducts.Some?
    && IsTopProducts(ranked.topProducts.value, sorted.productsSold)
    && ranked == sorted.(bonus := ranked.bonus, topProducts := ranked.topProducts)
  }

  /** The projected ranking reports every seller at its rank. */
  lemma OutputReportsSellers(input: Input, accumulated: seq<SellerStat>, ranked: seq<SellerStat>,
                             ranking: seq<nat>, output: seq<SellerResult>)
    requires |accumulated| == |ranked| == |output| == |input.sellers|
    requires IsPermutation(ranking, |input.sellers|)
    requires forall i :: 0 <= i < |accumulated| ==>
               accumulated[i] == AccumulatedStat(input.sellers[i], ProductIndex(input.products),
                                                 input.purchaseRecords, input.calculateRevenue)
    requires forall k :: 0 <= k < |ranked| ==>
               RankedFrom(ranked[k], k, |input.sellers|, accumulated[ranking[k]], input.calculateBonus)
    requires forall k :: 0 <= k < |output| ==>
               (ranked[k].bonus.Some? && ranked[k].topProducts.Some? && output[k] == Project(ranked[k]))
    ensures forall k :: 0 <= k < |output| ==> ReportsSeller(output[k], k, input, ranking[k])
    ensures forall k :: 0 <= k < |output| ==> output[k].profit == ranked[k].profit
  {
  }

  // ------------------------------------------------ properties of the output

  /** The sum of a sequence of integers. */
  function Sum(s: seq<int>): int {
    if |s| == 0 then 0 else Sum(s[..|s| - 1]) + s[|s| - 1]
  }

  /** Taking out the element at p takes its value out of the sum. */
  lemma {:induction false} SumRemove(c: seq<int>, p: nat)
    requires p < |c|
    ensures Sum(c) == Sum(c[..p] + c[p + 1..]) + c[p]
  {
    var n := |c|;
    if p == n - 1 {
      assert c[..p] + c[p + 1..] == c[..n - 1];
    } else {
      var init := c[..n - 1];
      SumRemove(init, p);
      assert c[..p] + c[p + 1..] == (init[..p] + init[p + 1..]) + [c[n - 1]];
    }
  }

  /** Rearranging by a permutation does not change the sum. */
  lemma {:induction false} SumPermuted(a: seq<int>, c: seq<int>, perm: seq<nat>)
    requires |a| == |c| && IsPermutation(perm, |c|)
    requires forall k :: 0 <= k < |a| ==> a[k] == c[perm[k]]
    ensures Sum(a) == Sum(c)
  {
    var n := |a|;
    if n > 0 {
      var p := perm[n - 1];
      var c' := c[..p] + c[p + 1..];
      var perm': seq<nat> := seq(n - 1, k requires 0 <= k < n - 1 => if perm[k] > p then perm[k] - 1 else perm[k]);
      forall k | 0 <= k < n - 1 ensures perm[k] != p {
        assert perm[k] != perm[n - 1];
      }
      forall k | 0 <= k < n - 1 ensures a[..n - 1][k] == c'[perm'[k]] {
        if perm[k] > p {
          assert c'[perm[k] - 1] == c[perm[k]];
        } else {
          assert c'[perm[k]] == c[perm[k]];
        }
      }
      SumPermuted(a[..n - 1], c', perm');
      SumRemove(c, p);
    }
  }

  /** The sales counts of the output records, in output order. */
  function SalesCounts(output: seq<SellerResult>): (r: seq<int>)
    ensures |r| == |output| && forall k :: 0 <= k < |output| ==> r[k] == output[k].salesCount
  {
    seq(|output|, k requires 0 <= k < |output| => output[k].salesCount)
  }

  /** The sales counts of the sellers in input order. */
  function InputSalesCounts(sellers: seq<Seller>, records: seq<PurchaseRecord>): (r: seq<int>)
    ensures |r| == |sellers| && forall i :: 0 <= i < |sellers| ==> r[i] == CountRecords(records, sellers[i].id)
  {
    seq(|sellers|, i requires 0 <= i < |sellers| => CountRecords(records, sellers[i].id))
  }

  lemma {:induction false} TotalSalesCountIsSum(sellers: seq<Seller>, records: seq<PurchaseRecord>)
    ensures TotalSalesCount(sellers, records) == Sum(InputSalesCounts(sellers, records))
  {
    if |sellers| > 0 {
      var init := sellers[..|sellers| - 1];
      TotalSalesCountIsSum(init, records);
      assert InputSalesCounts(sellers, records)[..|sellers| - 1] == InputSalesCounts(init, records);
    }
  }

  /** Over a ranked output the sales counts add up to the number of records
      whose seller is known: never more than the number of records, and
      exactly that many when every record's seller is known. */
  lemma OutputSalesCountsAddUp(input: Input, output: seq<SellerResult>, ranking: seq<nat>)
    requires UniqueIds(input.sellers)
    requires |output| == |input.sellers| && IsPermutation(ranking, |input.sellers|)
    requires forall k :: 0 <= k < |output| ==> ReportsSeller(output[k], k, input, ranking[k])
    ensures Sum(SalesCounts(output)) == ResolvedRecords(input.purchaseRecords, SellerIds(input.sellers))
    ensures Sum(SalesCounts(output)) <= |input.purchaseRecords|
    ensures Sum(SalesCounts(output)) == |input.purchaseRecords|
        <==> forall j :: 0 <= j < |input.purchaseRecords| ==> input.purchaseRecords[j].sellerId in SellerIds(input.sellers)
  {
    var counts := InputSalesCounts(input.sellers, input.purchaseRecords);
    forall k | 0 <= k < |output| ensures SalesCounts(output)[k] == counts[ranking[k]] {
      assert ReportsSeller(output[k], k, input, ranking[k]);
    }
    SumPermuted(SalesCounts(output), counts, ranking);
    TotalSalesCountIsSum(input.sellers, input.purchaseRecords);
    SalesCountsAddUp(input.sellers, input.purchaseRecords);
  }

  /** When every item of every record has a positive quantity, so does every
      entry of every output top-products list. */
  lemma OutputTopProductsPositive(input: Input, output: seq<SellerResult>, ranking: seq<nat>)
    requires |output| == |ranking|
    requires forall k :: 0 <= k < |output| ==> ReportsSeller(output[k], k, input, ranking[k])
    requires forall r, j :: 0 <= r < |input.purchaseRecords| && 0 <= j < |input.purchaseRecords[r].items|
               ==> input.purchaseRecords[r].items[j].quantity >= 1
    ensures forall k, j :: 0 <= k < |output| && 0 <= j < |output[k].topProducts|
              ==> output[k].topProducts[j].quantity >= 1
  {
    forall k, j | 0 <= k < |output| && 0 <= j < |output[k].topProducts|
      ensures output[k].topProducts[j].quantity >= 1
    {
      assert ReportsSeller(output[k], k, input, ranking[k]);
      var seller := input.sellers[ranking[k]];
      var items := SellerItems(input.purchaseRecords, seller.id);
      SellerItemsPositive(input.purchaseRecords, seller.id);
      SoldPositive(items, ProductIndex(input.products), output[k].topProducts[j].sku);
    }
  }

  /** `analyzeSalesData(data, options)`: an error when the data or the
      options are unusable, otherwise one record per seller, ranked by profit
      (ties in input order), each with the statistics accumulated over all
      purchase records, the bonus of its rank and its top products. */
  method AnalyzeSalesData(data: Option<Dataset>, options: Option<Options>)
    returns (result: Result<seq<SellerResult>, AnalysisError>, ghost ranking: seq<nat>)
    requires data.Some? && data.value.sellers.Some? ==> UniqueIds(data.value.sellers.value)
    ensures result == Err(InvalidData) <==> !WellFormedData(data)
    ensures result == Err(MissingOption) <==>
              WellFormedData(data)
              && (options.None? || options.value.calculateRevenue.None? || options.value.calculateBonus.None?)
    ensures result.Ok? ==>
              (var input := Validate(data, options).value;
               var output := result.value;
               && |output| == |input.sellers|
               && IsPermutation(ranking, |input.sellers|)
               && (forall k :: 0 <= k < |output| ==> ReportsSeller(output[k], k, input, ranking[k]))
               && (forall k, l :: 0 <= k < l < |output| ==> output[k].profit >= output[l].profit)
               && (forall k, l :: 0 <= k < l < |output| && output[k].profit == output[l].profit
                     ==> ranking[k] < ranking[l])
               && Sum(SalesCounts(output)) == ResolvedRecords(input.purchaseRecords, SellerIds(input.sellers))
               && ((forall r, j :: 0 <= r < |input.purchaseRecords| && 0 <= j < |input.purchaseRecords[r].items|
                      ==> input.purchaseRecords[r].items[j].quantity >= 1)
                   ==> forall k, j :: 0 <= k < |output| && 0 <= j < |output[k].topProducts|
                         ==> output[k].topProducts[j].quantity >= 1))
  {
    var validated := Validate(data, options);
    if validated.Err? {
      result, ranking := Err(validated.error), [];
    } else {
      var output;
      var input := validated.value;
      output, ranking := Analyze(input);
      OutputSalesCountsAddUp(input, output, ranking);
      if forall r, j :: 0 <= r < |input.purchaseRecords| && 0 <= j < |input.purchaseRecords[r].items|
           ==> input.purchaseRecords[r].items[j].quantity >= 1 {
        OutputTopProductsPositive(input, output, ranking);
      }
      result := Ok(output);
    }
  }
}
