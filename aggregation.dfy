/**
 * The two derived values of an Order, computed from the set of ids of its
 * associated products over the product rows `catalog`:
 * the total price (a Sum aggregate that falls back to 0) and fulfilment
 * eligibility (every associated product available).
 */
module Aggregation {
  import opened Models

  /** Every associated product has a strictly positive price, as `Product.save` ensures. */
  ghost predicate PositivePrices(ids: set<nat>, catalog: map<nat, ProductRecord>)
    requires ids <= catalog.Keys
  {
    forall id :: id in ids ==> catalog[id].price > 0
  }

  /**
   * `Order.calculate_total_price`: the sum of the prices of the associated products,
   * and 0 rather than None when there are none. Each price is at least one cent,
   * so the total is at least the number of products.
   */
  ghost function TotalPrice(ids: set<nat>, catalog: map<nat, ProductRecord>): (total: int)
    requires ids <= catalog.Keys
    ensures PositivePrices(ids, catalog) ==> total >= |ids|
    decreases ids
  {
    if ids == {} then 0
    else
      var id :| id in ids;
      catalog[id].price + TotalPrice(ids - {id}, catalog)
  }

  /**
   * `Order.can_be_fulfilled`: `all(...)` over the associated products, which is true
   * exactly when none of them is unavailable (and so true when there are none).
   */
  ghost function CanBeFulfilled(ids: set<nat>, catalog: map<nat, ProductRecord>): (ok: bool)
    requires ids <= catalog.Keys
    ensures ok <==> forall id :: id in ids ==> catalog[id].available
    decreases ids
  {
    if ids == {} then true
    else
      var id :| id in ids;
      catalog[id].available && CanBeFulfilled(ids - {id}, catalog)
  }

  /** The total does not depend on which product the sum takes first. */
  lemma {:induction false} TotalPriceRemove(ids: set<nat>, catalog: map<nat, ProductRecord>, x: nat)
    requires ids <= catalog.Keys && x in ids
    ensures TotalPrice(ids, catalog) == catalog[x].price + TotalPrice(ids - {x}, catalog)
    decreases ids
  {
    var y :| y in ids && TotalPrice(ids, catalog) == catalog[y].price + TotalPrice(ids - {y}, catalog);
    if y != x {
      TotalPriceRemove(ids - {y}, catalog, x);
      TotalPriceRemove(ids - {x}, catalog, y);
      assert ids - {y} - {x} == ids - {x} - {y};
    }
  }

  /** Associating one more product raises the total by exactly its price. */
  lemma TotalPriceAdd(ids: set<nat>, catalog: map<nat, ProductRecord>, x: nat)
    requires ids <= catalog.Keys && x in catalog && x !in ids
    ensures TotalPrice(ids + {x}, catalog) == TotalPrice(ids, catalog) + catalog[x].price
  {
    TotalPriceRemove(ids + {x}, catalog, x);
    assert ids + {x} - {x} == ids;
  }

  /**
   * The total of two disjoint groups of products is the sum of their totals, so the
   * total is the same whatever order the association rows were added in.
   */
  lemma {:induction false} TotalPriceUnion(a: set<nat>, b: set<nat>, catalog: map<nat, ProductRecord>)
    requires a <= catalog.Keys && b <= catalog.Keys && a !! b
    ensures TotalPrice(a + b, catalog) == TotalPrice(a, catalog) + TotalPrice(b, catalog)
    decreases b
  {
    if b != {} {
      var x :| x in b;
      TotalPriceUnion(a, b - {x}, catalog);
      TotalPriceAdd(a + (b - {x}), catalog, x);
      TotalPriceRemove(b, catalog, x);
      assert a + (b - {x}) + {x} == a + b;
    }
  }

  /** Removing association rows lowers the total by the prices of the products that were associated. */
  lemma TotalPriceDifference(ids: set<nat>, removed: set<nat>, catalog: map<nat, ProductRecord>)
    requires ids <= catalog.Keys
    ensures TotalPrice(ids, catalog) == TotalPrice(ids - removed, catalog) + TotalPrice(ids * removed, catalog)
  {
    TotalPriceUnion(ids - removed, ids * removed, catalog);
    assert (ids - removed) + (ids * removed) == ids;
  }

  /** The total reads only the rows of the associated products: other rows may change freely. */
  lemma {:induction false} TotalPriceFrame(ids: set<nat>, c1: map<nat, ProductRecord>, c2: map<nat, ProductRecord>)
    requires ids <= c1.Keys && ids <= c2.Keys
    requires forall id :: id in ids ==> c1[id].price == c2[id].price
    ensures TotalPrice(ids, c1) == TotalPrice(ids, c2)
    decreases ids
  {
    if ids != {} {
      var x :| x in ids;
      TotalPriceRemove(ids, c1, x);
      TotalPriceRemove(ids, c2, x);
      TotalPriceFrame(ids - {x}, c1, c2);
    }
  }

  /**
   * Deleting product `x` from the catalog, together with its association row, lowers the
   * total by its price when it was associated and leaves the total alone otherwise.
   */
  lemma TotalPriceWithout(ids: set<nat>, catalog: map<nat, ProductRecord>, x: nat)
    requires ids <= catalog.Keys
    ensures ids - {x} <= (catalog - {x}).Keys
    ensures TotalPrice(ids - {x}, catalog - {x}) ==
              TotalPrice(ids, catalog) - (if x in ids then catalog[x].price else 0)
  {
    TotalPriceFrame(ids - {x}, catalog - {x}, catalog);
    if x in ids {
      TotalPriceRemove(ids, catalog, x);
    } else {
      assert ids - {x} == ids;
    }
  }

  /** An order with no products totals exactly 0 and can be fulfilled. */
  lemma EmptyOrder(catalog: map<nat, ProductRecord>)
    ensures TotalPrice({}, catalog) == 0
    ensures CanBeFulfilled({}, catalog)
  {
  }

  /** With every price positive, the total is positive exactly when some product is associated. */
  lemma TotalPricePositive(ids: set<nat>, catalog: map<nat, ProductRecord>)
    requires ids <= catalog.Keys && PositivePrices(ids, catalog)
    ensures TotalPrice(ids, catalog) > 0 <==> ids != {}
  {
  }

  /**
   * Fulfilment is lost by associating an unavailable product, and regained by removing
   * the only unavailable one.
   */
  lemma RemoveOnlyUnavailable(ids: set<nat>, catalog: map<nat, ProductRecord>, x: nat)
    requires ids <= catalog.Keys && x in ids && !catalog[x].available
    requires forall id :: id in ids && id != x ==> catalog[id].available
    ensures !CanBeFulfilled(ids, catalog)
    ensures CanBeFulfilled(ids - {x}, catalog)
  {
  }

  /** The total of two distinct products is the sum of their two prices. */
  lemma TotalPricePair(catalog: map<nat, ProductRecord>, a: nat, b: nat)
    requires a in catalog && b in catalog && a != b
    ensures TotalPrice({a, b}, catalog) == catalog[a].price + catalog[b].price
  {
    TotalPriceAdd({a}, catalog, b);
    TotalPriceAdd({}, catalog, a);
    assert {} + {a} == {a} && {a} + {b} == {a, b};
  }

  /**
   * Two products priced 10.00 (available) and 20.00 (unavailable) on one order
   * total 30.00 and cannot be fulfilled; without the second one the order can be.
   */
  lemma TwoProductScenario()
    ensures var catalog := map[1 := ProductRecord("Product 1222", 1000, true), 2 := ProductRecord("Product 2", 2000, false)];
      && TotalPrice({1, 2}, catalog) == 3000
      && !CanBeFulfilled({1, 2}, catalog)
      && CanBeFulfilled({1, 2} - {2}, catalog)
  {
    var catalog := map[1 := ProductRecord("Product 1222", 1000, true), 2 := ProductRecord("Product 2", 2000, false)];
    TotalPricePair(catalog, 1, 2);
  }
}
