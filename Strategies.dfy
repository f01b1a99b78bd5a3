/** The two default strategies: the revenue of one receipt line and the bonus
    of a seller by profit rank. Both work in integer cents. */
module Strategies {
  import opened Money
  import opened SalesData

  /** `calculateSimpleRevenue`: sale price times quantity, less the discount
      percentage, to the nearest cent. */
  function CalculateSimpleRevenue(item: PurchaseItem, product: Product): (r: int)
    ensures -50 <= 100 * r - item.salePrice * item.quantity * (100 - item.discount) <= 50
  {
    HundredthsToCents(item.salePrice * item.quantity * (100 - item.discount))
  }

  /** Without a discount the revenue is exactly sale price times quantity;
      with a full discount it is zero. */
  lemma SimpleRevenueDiscountExtremes(item: PurchaseItem, product: Product)
    ensures item.discount == 0 ==> CalculateSimpleRevenue(item, product) == item.salePrice * item.quantity
    ensures item.discount == 100 ==> CalculateSimpleRevenue(item, product) == 0
  {
    var gross := item.salePrice * item.quantity;
    if item.discount == 0 {
      assert gross * (100 - item.discount) == 100 * gross;
    }
  }

  /** For a non-negative gross amount and a discount between 0 and 100 the
      revenue lies between zero and the gross amount, and a larger discount
      never yields a larger revenue. */
  lemma SimpleRevenueBounds(item: PurchaseItem, product: Product, moreDiscount: int)
    requires item.salePrice >= 0 && item.quantity >= 0
    requires 0 <= item.discount <= moreDiscount <= 100
    ensures 0 <= CalculateSimpleRevenue(item, product) <= item.salePrice * item.quantity
    ensures CalculateSimpleRevenue(item.(discount := moreDiscount), product) <= CalculateSimpleRevenue(item, product)
  {
    var gross := item.salePrice * item.quantity;
    ScaleMonotone(item.salePrice, 0, item.quantity);
    ScaleMonotone(gross, 0, 100 - item.discount);
    ScaleMonotone(gross, 100 - item.discount, 100);
    ScaleMonotone(gross, 100 - moreDiscount, 100 - item.discount);
    HundredthsToCentsMonotone(0, gross * (100 - item.discount));
    HundredthsToCentsMonotone(gross * (100 - item.discount), gross * 100);
    HundredthsToCentsMonotone(gross * (100 - moreDiscount), gross * (100 - item.discount));
  }

  lemma ScaleMonotone(g: int, x: int, y: int)
    requires g >= 0 && x <= y
    ensures g * x <= g * y
  {
  }

  /** `calculateBonusByProfit`: 15% of the profit for the first place, 10% for
      the second and third, nothing for the last place and 5% otherwise. The
      checks are made in this order, so a single seller gets 15%. */
  function CalculateBonusByProfit(index: nat, total: nat, seller: SellerStat): (r: int)
    ensures index == 0 ==> r == PercentOf(seller.profit, 15)
    ensures (index == 1 || index == 2) ==> r == PercentOf(seller.profit, 10)
    ensures index > 2 && index == total - 1 ==> r == 0
    ensures index > 2 && index != total - 1 ==> r == PercentOf(seller.profit, 5)
  {
    if index == 0 then PercentOf(seller.profit, 15)
    else if index == 1 || index == 2 then PercentOf(seller.profit, 10)
    else if index == total - 1 then 0
    else PercentOf(seller.profit, 5)
  }

  /** The first-place check comes before the last-place check: a lone seller
      is both, and gets 15%. */
  lemma BonusSingleSeller(seller: SellerStat)
    ensures CalculateBonusByProfit(0, 1, seller) == PercentOf(seller.profit, 15)
  {
  }

  /** With four sellers the ranks earn 15%, 10%, 10% and 0% of their profits. */
  lemma BonusFourSellers(s0: SellerStat, s1: SellerStat, s2: SellerStat, s3: SellerStat)
    ensures CalculateBonusByProfit(0, 4, s0) == PercentOf(s0.profit, 15)
    ensures CalculateBonusByProfit(1, 4, s1) == PercentOf(s1.profit, 10)
    ensures CalculateBonusByProfit(2, 4, s2) == PercentOf(s2.profit, 10)
    ensures CalculateBonusByProfit(3, 4, s3) == 0
  {
  }

  /** A non-negative profit yields a bonus between zero and 15% of it. */
  lemma BonusBounds(index: nat, total: nat, seller: SellerStat)
    requires seller.profit >= 0
    ensures 0 <= CalculateBonusByProfit(index, total, seller) <= PercentOf(seller.profit, 15)
  {
    var p := seller.profit;
    assert p * 5 <= p * 10 <= p * 15;
    HundredthsToCentsMonotone(p * 5, p * 15);
    HundredthsToCentsMonotone(p * 10, p * 15);
  }

  /** Along a ranking by non-increasing, non-negative profit the bonuses do
      not increase: a better rank never pays less than a worse one. */
  lemma BonusNonIncreasingWithRank(i: nat, j: nat, total: nat, better: SellerStat, worse: SellerStat)
    requires i < j < total
    requires better.profit >= worse.profit >= 0
    ensures CalculateBonusByProfit(i, total, better) >= CalculateBonusByProfit(j, total, worse)
  {
    var b, w := better.profit, worse.profit;
    BonusBounds(j, total, worse);
    assert w * 5 <= w * 10 <= w * 15;
    assert w * 15 <= b * 15 && w * 10 <= b * 10 && w * 5 <= b * 5;
    if i == 0 {
      HundredthsToCentsMonotone(w * 15, b * 15);
    } else if i == 1 || i == 2 {
      assert j != 0;
      HundredthsToCentsMonotone(w * 10, b * 10);
      HundredthsToCentsMonotone(w * 5, b * 10);
    } else {
      assert i != total - 1 && j > 2;
      HundredthsToCentsMonotone(w * 5, b * 5);
    }
  }
}
