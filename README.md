# Sales analysis and seller bonuses

This project models `analyzeSalesData` from `src/main.js` and its two default strategies.

`analyzeSalesData` takes a dataset of sellers, product cards and purchase records (receipts), plus an options object carrying two strategies: `calculateRevenue` and `calculateBonus`. It works in four stages:

1. It validates the dataset and the options.
2. It builds a seller index (id to accumulator) and a product index (sku to card).
3. It walks every receipt and every receipt line, accumulating each seller's:
   - number of sales;
   - revenue;
   - profit;
   - quantity sold per sku.
4. It sorts the sellers by profit (a stable sort), gives each rank a bonus through the strategy, and attaches the seller's ten best-selling products. It then projects every accumulator into an output record.

The default strategies are:
- `calculateSimpleRevenue`: the line's sale price times quantity, less the discount percentage.
- `calculateBonusByProfit`: 15, 10, 10, ..., 5 or 0 percent of the profit, by rank.

## How the model is built

- **Money** is an integer number of cents (`Money`). Rounding a sum of cents to two decimals is then the identity. Taking a percentage yields hundredths of a cent, which `Money.HundredthsToCents` rounds to the nearest cent, ties away from zero.
- **Entities** (sellers, product cards, receipts, their lines, the per-seller accumulator, the output record) are datatypes (`SalesData`). A JavaScript value that may be absent or of the wrong type is an `Option`.
- **The accumulators** live in an `array<SellerStat>` and are updated in place. The seller index maps a seller id to the position of that seller's accumulator. This plays the role of the object alias that the JavaScript index holds.
- **The `bonus` and `top_products` fields** are added to an accumulator only after the sort. Until then they are `None`.
- **The strategies** are function-typed values, and the analyzer always calls through them. The defaults are separate functions (`Strategies`).
- **The closed forms** are in `SalesSpec`. They state what every accumulator holds after all records, independently of the loops: the sales count, the items of the seller's receipts, the revenue, the cost, the profit and the quantity sold per sku. The loops in `SalesAnalyzer` are proved to compute exactly these.
- **The profit sort** is an insertion sort in place on the array. A ghost permutation records where each accumulator came from, and the proof shows the sort is stable.
- **Top products** (`ProductRanking`):
  - The entries of `products_sold` are enumerated in an unspecified order, as a nondeterministic choice.
  - They are sorted by quantity, largest first, by an insertion sort; the order among equal quantities is not specified.
  - The list is cut to ten.
  - `SalesSpec.IsTopProducts` states what the result is: at most ten distinct entries `(sku, products_sold[sku])`, quantities non-increasing, and no omitted sku sold more than a listed one.

## Model

| member | source | states |
|---|---|---|
| SalesAnalyzer.Validate | src/main.js:48-73 | The data error comes exactly when the dataset, or its sellers, products or purchase records, is missing or empty. The options error comes exactly when the data is fine but the options object or one of its two strategies is missing. Otherwise the validated input carries the three arrays and both strategies unchanged. |
| SalesAnalyzer.AnalyzeSalesData | src/main.js:46-137 | An error result iff validation fails, with the same error kind. Otherwise: one output record per seller; `ranking` is a permutation of the input positions; each record reports its seller's full accumulated statistics, the strategy's bonus for its rank and a valid top-products list; profits never increase along the output; equal profits keep input order; the sales counts of the output add up to the number of records whose seller is known; and when every quantity is positive, so is every top-products quantity. |
| SalesAnalyzer.Analyze | src/main.js:76-136 | On validated input with unique seller ids: one output record per seller; `ranking` is a permutation of the input positions; each record reports, at its rank, its seller's accumulated statistics, the strategy's bonus and a valid top-products list; profits never increase along the output; equal profits keep input order. The sales-count sum and the positive top-products quantities follow from this postcondition by `OutputSalesCountsAddUp` and `OutputTopProductsPositive`. |
| SalesAnalyzer.Project | src/main.js:128-136 | The output record carries the accumulator's id, name, revenue, profit and sales count, its top-products list and its bonus, with no further change (sums of cents are already at two decimals). |
| SalesAnalyzer.OutputSalesCountsAddUp | src/main.js:90-94 | Over the ranked output, the sales counts add up to the number of records whose seller is known. They never exceed the number of records, and they equal it iff every record's seller is known. |
| SalesAnalyzer.OutputTopProductsPositive | src/main.js:107-124 | When every item of every record has a positive quantity, every entry of every output top-products list has a positive quantity. |
| SalesSpec.InitialStat | src/main.js:76-83 | A fresh accumulator has the seller's id and display name, zero revenue, profit and sales count, an empty `products_sold`, and no bonus or top products yet. |
| SalesSpec.DisplayName | src/main.js:78 | The name is the first name, one space, then the last name. |
| SalesSpec.PositionIndex | src/main.js:86 | The seller index has exactly the sellers' ids as keys, and each id maps to a position holding the seller with that id. |
| SalesSpec.ProductIndex | src/main.js:87 | The product index has exactly the skus of the cards as keys. Each key maps to a card from the list with that sku. When a sku occurs more than once, the last card wins. |
| SalesAnalyzer.Accumulate | src/main.js:90-112 | After the record loop, every seller's accumulator equals the closed form over all records: the sales count is the number of that seller's records, and revenue, profit and `products_sold` are computed over the items of those records with a known sku. |
| SalesAnalyzer.AccumulateRecord | src/main.js:91-111 | A record of a known seller turns every accumulator into the closed form over the records seen so far plus this one. The record's own seller gets one more sale and its items; every other position keeps its value, which `SalesSpec.OtherSellerRecordIgnored` shows is still its closed form. |
| SalesAnalyzer.AccumulateItem | src/main.js:97-110 | One line of a known sku adds its revenue, its revenue less its cost, and its quantity under its sku to the accumulator at the given position, creating the sku entry at zero first. A line of an unknown sku changes nothing. Every other position is unchanged. |
| SalesSpec.StatOverAppend | src/main.js:97-110 | The closed form over one more item is the previous closed form updated exactly as the loop body updates it. |
| SalesSpec.SoldAppend | src/main.js:107-110 | One more item of a known sku creates its `products_sold` entry at zero if absent, then adds the quantity. An unknown sku leaves `products_sold` unchanged. |
| SalesSpec.InitialIsEmptyAccumulation | src/main.js:76-83 | The freshly built accumulator (zero revenue, profit and sales, empty `products_sold`) is the closed form over no records. |
| SalesSpec.OtherSellerRecordIgnored | src/main.js:90-94 | A record by another seller leaves a seller's accumulated statistics unchanged. |
| SalesSpec.UnknownSellerRecordIgnored | src/main.js:91-92 | A record whose seller id is not in the seller index changes no seller's statistics. |
| SalesSpec.UnknownSkuIgnored | src/main.js:94-98 | A line with an unknown sku leaves revenue, profit and `products_sold` as they would be without it, while its record still adds one sale. |
| SalesSpec.EmptyRecordCounts | src/main.js:94-96 | A record without lines adds one sale and changes nothing else. |
| SalesSpec.SalesCountsAddUp | src/main.js:90-94 | With unique seller ids, the sales counts of all sellers add up to the number of records with a known seller. So they never exceed the number of records, and they equal it iff every record's seller is known. |
| SalesSpec.ProfitIsRevenueMinusCost | src/main.js:100-105 | The accumulated profit is the accumulated revenue less the total purchase cost of the same items. |
| SalesSpec.SoldPositive | src/main.js:107-110 | When every quantity is at least one, every `products_sold` entry is at least one. |
| SalesAnalyzer.SortByProfit | src/main.js:115 | The sort rearranges the array by a permutation. Profits never increase along the result, and sellers of equal profit keep their input order (the sort is stable). |
| SalesAnalyzer.Rank | src/main.js:115-125 | After the sort and the bonus loop, each position holds the accumulator the permutation names, completed for its rank; the array is sorted by profit and stable. |
| SalesAnalyzer.AssignBonusesAndTopProducts | src/main.js:118-125 | Each position gets the bonus the strategy gives its index, the array's length and its accumulator, plus a valid top-products list of its `products_sold`. Nothing else in the accumulator changes. |
| ProductRanking.TopProducts | src/main.js:121-124 | The result is a top-products list of `products_sold`: at most ten entries, distinct skus, each with its exact quantity, quantities non-increasing, and any sku left out sold no more than every listed one (so no sku is left out when fewer than ten are listed). |
| ProductRanking.Entries | src/main.js:121-122 | The entries are the pairs `(sku, quantity)` of the dictionary, each sku exactly once. |
| ProductRanking.SortByQuantity | src/main.js:123 | The result is a permutation of the entries, with non-increasing quantities. |
| ProductRanking.InsertKeepsOrder | src/main.js:123 | Inserting an entry into a list sorted by quantity keeps it sorted. |
| ProductRanking.SortKeepsSkusDistinct | src/main.js:121-123 | Sorting entries with distinct skus keeps them distinct. |
| ProductRanking.FirstTenAreTop | src/main.js:123-124 | The first ten entries of a sorted list of all the dictionary's entries form a top-products list. |
| Strategies.CalculateSimpleRevenue | src/main.js:7-18 | The revenue is sale price times quantity times (100 − discount) / 100, to within half a cent. |
| Strategies.SimpleRevenueDiscountExtremes | src/main.js:11-17 | Without a discount the revenue is exactly sale price times quantity; with a full discount it is zero. |
| Strategies.SimpleRevenueBounds | src/main.js:11-17 | For non-negative prices and quantities and a discount between 0 and 100, the revenue lies between zero and the undiscounted amount, and a larger discount never gives more revenue. |
| Strategies.CalculateBonusByProfit | src/main.js:27-38 | The branches in the source's order: index 0 gets 15% of the profit; index 1 or 2 gets 10%; any other index that is the last (total − 1) gets 0; every other index gets 5%. |
| Strategies.BonusSingleSeller | src/main.js:29-30 | A lone seller is both first and last, and gets 15%, because the first-place branch is checked first. |
| Strategies.BonusFourSellers | src/main.js:29-37 | With four sellers the ranks earn 15%, 10%, 10% and 0% of their profits. |
| Strategies.BonusBounds | src/main.js:29-37 | For a non-negative profit the bonus lies between zero and 15% of that profit. |
| Strategies.BonusNonIncreasingWithRank | src/main.js:29-37 | Along a ranking by non-increasing, non-negative profit, a better rank never gets a smaller bonus than a worse one. |
| Money.HundredthsToCents | src/main.js:17 | The result is the integer nearest to x / 100, with ties going away from zero (as `toFixed(2)` does on an exact amount). |
| Money.PercentOf | src/main.js:30-36 | A percentage between 0 and 100 of a non-negative amount lies between zero and that amount, and any percentage of zero is zero. |

## Left out

- **Floating point.** `toFixed(2)` and `toFixed(4)`, the four-decimal discount coefficient and `Number(...)` are not modelled (src/main.js:14, 17, 100-105, 131-135). Money is integer cents, so every rounding of a sum to two decimals is the identity. The only rounding kept is of percentages to the nearest cent.
- **Bonus rounding.** `calculateBonusByProfit` returns an unrounded product, and the output later rounds it to two decimals (src/main.js:135). In the model, the `calculateBonus` strategy returns cents already rounded. The default does that rounding with `Money.PercentOf`, and the projection copies the value unchanged.
- **JavaScript type checks.** `Array.isArray`, `typeof ... === "function"` and the `null` test are replaced by `Option`: a value that is missing or of the wrong type is `None`.
- **The second data check** (src/main.js:59-61) is not modelled. It can never fail once the first check (src/main.js:48-57) has passed.
- **Error messages.** Their text is not modelled. The two distinct messages become the two error kinds `InvalidData` and `MissingOption`.
- **Property keys of JavaScript objects.** Keys such as `toString` found on the prototype, and the conversion of ids to strings, are not modelled. Keys are compared as plain strings.
- **Key order of `Object.entries`,** and therefore the order among top products of equal quantity, is left unspecified. Because of this, no lemma states that two runs of the analysis give the same output.
- **Duplicate skus** are modelled: the last card wins.
- **Quantities** are not required to be positive, and negative ones are accumulated as given. Positive quantities are assumed only by the positivity lemmas (`SalesSpec.SoldPositive`, `SalesSpec.SellerItemsPositive`, `SalesAnalyzer.OutputTopProductsPositive`) and by the matching conditional clause of `SalesAnalyzer.AnalyzeSalesData`'s postcondition.
- **Aliasing.** The seller index holds array positions rather than object references, so the aliasing between the index and the accumulator list is represented by those positions.
- SalesAnalyzer.AnalyzeSalesData: requires unique seller ids (`UniqueIds`), which the source does not check. With duplicates, the JavaScript index lets the last seller win, and the earlier seller's accumulator would stay at zero.
- SalesAnalyzer.Analyze: requires unique seller ids, for the same reason.
