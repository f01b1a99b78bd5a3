/** The top-products list of one seller: the entries of `products_sold`,
    sorted by quantity, largest first, and cut to ten. */
module ProductRanking {
  import opened SalesData
  import opened SalesSpec

  predicate ByQuantityDescending(s: seq<TopProduct>) {
    forall j, l :: 0 <= j < l < |s| ==> s[j].quantity >= s[l].quantity
  }

  /** `Object.entries(sold).map(...)`: every entry of the dictionary once, as
      a `{sku, quantity}` pair. The enumeration order is left open. */
  method Entries(sold: map<Sku, int>) returns (entries: seq<TopProduct>)
    ensures TopSkus(entries) == sold.Keys
    ensures NoDuplicateSkus(entries)
    ensures forall j :: 0 <= j < |entries| ==> entries[j].sku in sold && entries[j].quantity == sold[entries[j].sku]
  {
    entries := [];
    var rest := sold.Keys;
    while rest != {}
      invariant TopSkus(entries) + rest == sold.Keys
      invariant TopSkus(entries) !! rest
      invariant NoDuplicateSkus(entries)
      invariant forall j :: 0 <= j < |entries| ==> entries[j].sku in sold && entries[j].quantity == sold[entries[j].sku]
      decreases rest
    {
      var sku :| sku in rest;
      assert forall j :: 0 <= j < |entries| ==> entries[j] in entries;
      assert TopSkus(entries + [TopProduct(sku, sold[sku])]) == TopSkus(entries) + {sku};
      entries := entries + [TopProduct(sku, sold[sku])];
      rest := rest - {sku};
    }
  }

  /** Puts `entry` into the list `sorted`, before the first entry that does
      not sell more. */
  function Insert(entry: TopProduct, sorted: seq<TopProduct>): (r: seq<TopProduct>)
    ensures multiset(r) == multiset(sorted) + multiset{entry}
  {
    if sorted == [] || entry.quantity >= sorted[0].quantity then
      [entry] + sorted
    else
      assert sorted == [sorted[0]] + sorted[1..];
      [sorted[0]] + Insert(entry, sorted[1..])
  }

  /** Inserting into a descending list gives a descending list. */
  lemma {:induction false} InsertKeepsOrder(entry: TopProduct, sorted: seq<TopProduct>)
    requires ByQuantityDescending(sorted)
    ensures ByQuantityDescending(Insert(entry, sorted))
  {
    if sorted != [] && entry.quantity < sorted[0].quantity {
      var tail := sorted[1..];
      InsertKeepsOrder(entry, tail);
      var rest := Insert(entry, tail);
      forall j | 0 <= j < |rest| ensures rest[j].quantity <= sorted[0].quantity {
        assert rest[j] in multiset(rest);
        if rest[j] != entry {
          assert rest[j] in multiset(tail);
          var k :| 0 <= k < |tail| && tail[k] == rest[j];
          assert sorted[k + 1] == rest[j];
        }
      }
      PrependKeepsOrder(sorted[0], rest);
    }
  }

  lemma PrependKeepsOrder(head: TopProduct, rest: seq<TopProduct>)
    requires ByQuantityDescending(rest)
    requires forall j :: 0 <= j < |rest| ==> rest[j].quantity <= head.quantity
    ensures ByQuantityDescending([head] + rest)
  {
  }

  /** `.sort((a, b) => b.quantity - a.quantity)`: a sort by quantity,
      largest first. The order among equal quantities is not specified. */
  function SortByQuantity(entries: seq<TopProduct>): (r: seq<TopProduct>)
    ensures ByQuantityDescending(r)
    ensures multiset(r) == multiset(entries)
  {
    if entries == [] then []
    else
      assert entries == [entries[0]] + entries[1..];
      var sortedTail := SortByQuantity(entries[1..]);
      InsertKeepsOrder(entries[0], sortedTail);
      Insert(entries[0], sortedTail)
  }

  /** A permutation lists the same skus. */
  lemma SameSkus(a: seq<TopProduct>, b: seq<TopProduct>)
    requires multiset(a) == multiset(b)
    ensures TopSkus(a) == TopSkus(b)
  {
    forall e | e in a ensures e in b { assert e in multiset(a); }
    forall e | e in b ensures e in a { assert e in multiset(b); }
  }

  /** Sorting keeps the skus distinct. */
  lemma {:induction false} SortKeepsSkusDistinct(entries: seq<TopProduct>)
    requires NoDuplicateSkus(entries)
    ensures NoDuplicateSkus(SortByQuantity(entries))
  {
    if entries != [] {
      var tail := entries[1..];
      assert NoDuplicateSkus(tail);
      SortKeepsSkusDistinct(tail);
      var sortedTail := SortByQuantity(tail);
      SameSkus(sortedTail, tail);
      InsertKeepsSkusDistinct(entries[0], sortedTail);
    }
  }

  lemma {:induction false} InsertKeepsSkusDistinct(entry: TopProduct, sorted: seq<TopProduct>)
    requires NoDuplicateSkus(sorted) && entry.sku !in TopSkus(sorted)
    ensures NoDuplicateSkus(Insert(entry, sorted))
  {
    if sorted == [] || entry.quantity >= sorted[0].quantity {
      assert forall j :: 0 <= j < |sorted| ==> sorted[j] in sorted;
    } else {
      var tail := sorted[1..];
      assert TopSkus(tail) <= TopSkus(sorted) by {
        forall e | e in tail ensures e in sorted { }
      }
      assert NoDuplicateSkus(tail);
      InsertKeepsSkusDistinct(entry, tail);
      var rest := Insert(entry, tail);
      assert sorted[0].sku !in TopSkus(rest) by {
        SameSkus(rest, tail + [entry]);
        assert TopSkus(tail + [entry]) == TopSkus(tail) + {entry.sku};
      }
      assert forall j :: 0 <= j < |rest| ==> rest[j] in rest;
    }
  }

  /** The first ten entries of a sorted list of all of `sold` form a
      top-products list of `sold`. */
  lemma FirstTenAreTop(sorted: seq<TopProduct>, sold: map<Sku, int>)
    requires ByQuantityDescending(sorted) && NoDuplicateSkus(sorted)
    requires TopSkus(sorted) == sold.Keys
    requires forall j :: 0 <= j < |sorted| ==> sorted[j].sku in sold && sorted[j].quantity == sold[sorted[j].sku]
    ensures IsTopProducts(if |sorted| <= 10 then sorted else sorted[..10], sold)
  {
    var top := if |sorted| <= 10 then sorted else sorted[..10];
    assert forall j :: 0 <= j < |top| ==> top[j] == sorted[j];
    assert forall j :: 0 <= j < |top| ==> sorted[j].sku in TopSkus(top) by {
      forall j | 0 <= j < |top| ensures sorted[j].sku in TopSkus(top) {
        assert top[j] in top;
      }
    }
    forall sku | sku in sold && sku !in TopSkus(top)
      ensures |top| == 10 && forall j :: 0 <= j < |top| ==> top[j].quantity >= sold[sku]
    {
      var e :| e in sorted && e.sku == sku;
      var p :| 0 <= p < |sorted| && sorted[p] == e;
      assert p >= |top|;
    }
  }

  /** The top-products list of a seller that sold `sold`. */
  method TopProducts(sold: map<Sku, int>) returns (top: seq<TopProduct>)
    ensures IsTopProducts(top, sold)
  {
    var entries := Entries(sold);
    var sorted := SortByQuantity(entries);
    SortKeepsSkusDistinct(entries);
    SameSkus(sorted, entries);
    assert forall j :: 0 <= j < |sorted| ==> sorted[j] in multiset(entries);
    FirstTenAreTop(sorted, sold);
    top := if |sorted| <= 10 then sorted else sorted[..10];   // .slice(0, 10)
  }
}
