/**
 * The repository's model and API tests, replayed against the contracts of `Store.Database`.
 * Each method starts from an empty store.
 */
module Scenarios {
  import opened Wrappers
  import opened Models
  import opened Aggregation
  import opened Store
  import Policy

  /** The fixture of the order tests: one customer, two products, and a new order without products. */
  method OrderFixture() returns (s: Database, k: nat, a: nat, b: nat)
    ensures fresh(s) && s.Valid()
    ensures k in s.orders && s.orders[k].products == {}
    ensures a in s.products && s.products[a] == ProductRecord("Product 1222", 1000, true)
    ensures b in s.products && s.products[b] == ProductRecord("Product 2", 2000, false)
  {
    s := new Database();
    var c := s.SaveCustomer(None, CustomerFields(Some("John Doe"), Some("123 Main St")));
    var p1 := s.SaveProduct(None, ProductFields(Some("Product 1222"), Some(1000), Some(true)));
    var p2 := s.SaveProduct(None, ProductFields(Some("Product 2"), Some(2000), Some(false)));
    a, b := p1.value, p2.value;
    var o := s.SaveOrder(None, OrderFields(Some(c.value), 0, Some("New")));
    k := o.value;
  }

  /**
   * Products priced 10.00 (available) and 20.00 (unavailable) on one order: the total is
   * 30.00 and the order cannot be fulfilled; after removing the second product it can.
   */
  method OrderAggregation() returns (ghost total: int, ghost fulfillableWithBoth: bool, ghost fulfillableAfter: bool, linkedAfter: nat)
    ensures total == 3000 && !fulfillableWithBoth && fulfillableAfter && linkedAfter == 1
  {
    var s, k, a, b := OrderFixture();
    ghost var catalog := s.products;
    assert s.TotalPriceOf(k) == 0 && s.CanBeFulfilledOf(k);

    var added := s.AddProducts(k, {a, b});
    assert s.products == catalog && s.orders[k].products == {a, b};
    TotalPricePair(catalog, a, b);
    RemoveOnlyUnavailable({a, b}, catalog, b);
    total, fulfillableWithBoth := s.TotalPriceOf(k), s.CanBeFulfilledOf(k);

    var removed := s.RemoveProducts(k, {b});
    assert s.products == catalog && s.orders[k].products == {a, b} - {b};
    fulfillableAfter := s.CanBeFulfilledOf(k);
    linkedAfter := |s.orders[k].products|;
  }

  /** A customer without a name is refused, and nothing is stored. */
  method CustomerWithoutName() returns (r: Result<nat, SaveError>, stored: nat)
    ensures r == Err(EmptyField(Name)) && stored == 0
  {
    var s := new Database();
    r := s.SaveCustomer(None, CustomerFields(Some(""), Some("123 Main St")));
    stored := |s.customers|;
  }

  /** The fixture of the API tests: a store holding the product "Temporary Product" at 1.99. */
  method ProductFixture() returns (s: Database, id: nat)
    ensures fresh(s) && s.Valid()
    ensures s.products == map[id := ProductRecord("Temporary Product", 199, true)]
  {
    s := new Database();
    var p := s.SaveProduct(None, ProductFields(Some("Temporary Product"), Some(199), Some(true)));
    id := p.value;
  }

  /** Both kinds of user can list the products, and both see the one product. */
  method ListAsAnyone() returns (codes: seq<int>, asUser: map<nat, ProductRecord>, asAdmin: map<nat, ProductRecord>)
    ensures codes == [200, 200]
    ensures |asUser| == 1 && asUser.Values == {ProductRecord("Temporary Product", 199, true)}
    ensures |asAdmin| == 1 && asAdmin.Values == {ProductRecord("Temporary Product", 199, true)}
  {
    var s, id := ProductFixture();
    var st1, data1 := s.ServeProduct(false, ListProducts);
    var st2, data2 := s.ServeProduct(true, ListProducts);
    asUser, asAdmin := data1, data2;
    codes := [Policy.Code(st1), Policy.Code(st2)];
  }

  /** Both kinds of user can read the product, and both see its stored fields. */
  method RetrieveAsAnyone() returns (codes: seq<int>, asUser: ProductRecord, asAdmin: ProductRecord)
    ensures codes == [200, 200]
    ensures asUser == ProductRecord("Temporary Product", 199, true)
    ensures asAdmin == ProductRecord("Temporary Product", 199, true)
  {
    var s, id := ProductFixture();
    var st1, data1 := s.ServeProduct(false, RetrieveProduct(id));
    var st2, data2 := s.ServeProduct(true, RetrieveProduct(id));
    asUser, asAdmin := data1[id], data2[id];
    codes := [Policy.Code(st1), Policy.Code(st2)];
  }

  /**
   * A regular user's create is forbidden and stores nothing; an admin's is created,
   * and the response shows the new product.
   */
  method CreateAsEach() returns (codes: seq<int>, created: ProductRecord, stored: nat)
    ensures codes == [403, 201]
    ensures created == ProductRecord("Temporary Product 2", 499, true)
    ensures stored == 2
  {
    var s, id := ProductFixture();
    var fields := ProductFields(Some("Temporary Product 2"), Some(499), Some(true));
    var st1, _ := s.ServeProduct(false, CreateProduct(fields, true));
    assert |s.products| == 1;
    var st2, data := s.ServeProduct(true, CreateProduct(fields, true));
    assert |data| == 1;
    var k :| k in data;
    created := data[k];
    codes := [Policy.Code(st1), Policy.Code(st2)];
    stored := |s.products|;
  }

  /**
   * A regular user's partial update is forbidden and changes nothing; an admin's partial
   * update of the name keeps the price and the availability.
   */
  method RenameAsEach() returns (codes: seq<int>, patched: ProductRecord)
    ensures codes == [403, 200]
    ensures patched == ProductRecord("Modified Product", 199, true)
  {
    var s, id := ProductFixture();
    var rename := UpdateProduct(id, ProductPatch(Given(Some("Modified Product")), Omitted, Omitted), true, true);
    var st1, _ := s.ServeProduct(false, rename);
    var st2, data := s.ServeProduct(true, rename);
    codes := [Policy.Code(st1), Policy.Code(st2)];
    patched := data[id];
  }

  /** A regular user's delete is forbidden and keeps the product; an admin's leaves no product. */
  method DeleteAsEach() returns (codes: seq<int>, remaining: nat)
    ensures codes == [403, 204] && remaining == 0
  {
    var s, id := ProductFixture();
    var st1, _ := s.ServeProduct(false, DestroyProduct(id));
    assert |s.products| == 1;
    var st2, _ := s.ServeProduct(true, DestroyProduct(id));
    codes := [Policy.Code(st1), Policy.Code(st2)];
    remaining := |s.products|;
  }

  /** A body the serializer refuses is forbidden to a regular user and a bad request for an admin. */
  method InvalidBody() returns (codes: seq<int>)
    ensures codes == [403, 400, 403, 400]
  {
    var s, id := ProductFixture();
    var bad := ProductFields(Some(""), Some(-100), Some(true));
    var st1, _ := s.ServeProduct(false, CreateProduct(bad, false));
    var st2, _ := s.ServeProduct(true, CreateProduct(bad, false));
    var patch := ProductPatch(Given(Some("")), Given(Some(-100)), Omitted);
    var st3, _ := s.ServeProduct(false, UpdateProduct(id, patch, true, false));
    var st4, _ := s.ServeProduct(true, UpdateProduct(id, patch, true, false));
    codes := [Policy.Code(st1), Policy.Code(st2), Policy.Code(st3), Policy.Code(st4)];
  }

  /** Reading an unknown id is not found for both kinds of user. */
  method ReadUnknown() returns (codes: seq<int>)
    ensures codes == [404, 404]
  {
    var s, id := ProductFixture();
    var st1, _ := s.ServeProduct(false, RetrieveProduct(id + 1));
    var st2, _ := s.ServeProduct(true, RetrieveProduct(id + 1));
    codes := [Policy.Code(st1), Policy.Code(st2)];
  }

  /** Deleting an unknown id is forbidden for a regular user and not found for an admin. */
  method DeleteUnknown() returns (codes: seq<int>)
    ensures codes == [403, 404]
  {
    var s, id := ProductFixture();
    var st1, _ := s.ServeProduct(false, DestroyProduct(id + 1));
    var st2, _ := s.ServeProduct(true, DestroyProduct(id + 1));
    codes := [Policy.Code(st1), Policy.Code(st2)];
  }
}
