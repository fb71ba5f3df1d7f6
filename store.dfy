/**
 * The persistent store: the Customer, Product and Order tables, the Order-Product
 * association rows, and the operations that change them. Every write goes through
 * the checks of `Models`, and a refused write leaves the store as it was.
 */
module Store {
  import opened Wrappers
  import opened Models
  import opened Aggregation
  import Policy

  /** Why an association row could not be added or removed. */
  datatype LinkError = UnsavedOrder | UnknownProduct

  /** A field of a request body: left out of it, or given (possibly as null). */
  datatype Patch<T> = Omitted | Given(value: T)

  /** The body of a product update; a partial update may leave fields out. */
  datatype ProductPatch = ProductPatch(name: Patch<Option<string>>, price: Patch<Option<int>>, available: Patch<Option<bool>>)

  /**
   * A request to the product endpoint. `valid` is the serializer's verdict on the body
   * (the serializer is not part of this model), `partial` tells PATCH from PUT.
   */
  datatype ProductRequest =
    | ListProducts
    | RetrieveProduct(id: nat)
    | CreateProduct(fields: ProductFields, valid: bool)
    | UpdateProduct(id: nat, patch: ProductPatch, partial: bool, valid: bool)
    | DestroyProduct(id: nat)

  function PatchField<T>(current: T, p: Patch<Option<T>>): Option<T> {
    match p
    case Omitted => Some(current)
    case Given(v) => v
  }

  /** The instance an update saves: supplied fields replace the stored ones, the rest are kept. */
  function Patched(rec: ProductRecord, p: ProductPatch): (f: ProductFields)
    ensures p.name.Omitted? ==> f.name == Some(rec.name)
    ensures p.price.Omitted? ==> f.price == Some(rec.price)
    ensures p.available.Omitted? ==> f.available == Some(rec.available)
    ensures p.name.Given? ==> f.name == p.name.value
    ensures p.price.Given? ==> f.price == p.price.value
    ensures p.available.Given? ==> f.available == p.available.value
  {
    ProductFields(PatchField(rec.name, p.name), PatchField(rec.price, p.price), PatchField(rec.available, p.available))
  }

  /** The row written for product fields that passed every check. */
  function ProductRow(p: ProductFields): (rec: ProductRecord)
    requires ProductWriteCheck(p).None?
    ensures Some(rec.name) == p.name && Some(rec.price) == p.price && Some(rec.available) == p.available
    ensures rec.price > 0
  {
    ProductRecord(p.name.value, p.price.value, p.available.value)
  }

  function ActionOf(req: ProductRequest): Policy.Action {
    match req
    case ListProducts => Policy.List
    case RetrieveProduct(_) => Policy.Retrieve
    case CreateProduct(_, _) => Policy.Create
    case UpdateProduct(_, _, partial, _) => if partial then Policy.PartialUpdate else Policy.Update
    case DestroyProduct(_) => Policy.Destroy
  }

  /** Whether the object a request names is in the table (true for requests that name none). */
  function IdExists(req: ProductRequest, catalog: map<nat, ProductRecord>): bool {
    match req
    case RetrieveProduct(id) => id in catalog
    case UpdateProduct(id, _, _, _) => id in catalog
    case DestroyProduct(id) => id in catalog
    case _ => true
  }

  function PayloadValid(req: ProductRequest): bool {
    match req
    case CreateProduct(_, valid) => valid
    case UpdateProduct(_, _, _, valid) => valid
    case _ => true
  }

  /** The instance a create or update request saves. */
  function Candidate(req: ProductRequest, catalog: map<nat, ProductRecord>): ProductFields
    requires req.CreateProduct? || req.UpdateProduct?
    requires req.UpdateProduct? ==> req.id in catalog
  {
    if req.CreateProduct? then req.fields else Patched(catalog[req.id], req.patch)
  }

  /** The orders after a product is deleted: its association rows are gone, the orders stay. */
  function Detach(orders: map<nat, OrderRecord>, productId: nat): (r: map<nat, OrderRecord>)
    ensures r.Keys == orders.Keys
    ensures forall k :: k in r ==> r[k] == orders[k].(products := orders[k].products - {productId})
  {
    map k | k in orders :: orders[k].(products := orders[k].products - {productId})
  }

  /** The orders after a customer is deleted: the foreign key cascades to that customer's orders. */
  function Cascade(orders: map<nat, OrderRecord>, customerId: nat): (r: map<nat, OrderRecord>)
    ensures forall k :: k in r <==> k in orders && orders[k].customer != customerId
    ensures forall k :: k in r ==> r[k] == orders[k]
  {
    map k | k in orders && orders[k].customer != customerId :: orders[k]
  }

  class Database {
    var customers: map<nat, CustomerRecord>
    var products: map<nat, ProductRecord>
    var orders: map<nat, OrderRecord>
    /** The next id each table's auto-increment key hands out. */
    var nextCustomerId: nat
    var nextProductId: nat
    var nextOrderId: nat

    /**
     * Ids are below the next one to be handed out; every stored customer and product
     * passed its `save` guard; every order references a stored customer and stored products.
     */
    ghost predicate Valid()
      reads this
    {
      && (forall id :: id in customers ==> id < nextCustomerId && customers[id].name != "" && customers[id].address != "")
      && (forall id :: id in products ==> id < nextProductId && products[id].price > 0)
      && (forall id :: id in orders ==> id < nextOrderId)
      && (forall id :: id in orders ==> orders[id].customer in customers && orders[id].products <= products.Keys)
    }

    /** The total price of a stored order. */
    ghost function TotalPriceOf(orderId: nat): int
      reads this
      requires Valid() && orderId in orders
    {
      TotalPrice(orders[orderId].products, products)
    }

    /** Whether a stored order can be fulfilled. */
    ghost function CanBeFulfilledOf(orderId: nat): bool
      reads this
      requires Valid() && orderId in orders
    {
      CanBeFulfilled(orders[orderId].products, products)
    }

    constructor ()
      ensures Valid()
      ensures customers == map[] && products == map[] && orders == map[]
    {
      customers, products, orders := map[], map[], map[];
      nextCustomerId, nextProductId, nextOrderId := 1, 1, 1;
    }

    /**
     * `Customer.save`: the guard chain, then the write. Without a primary key a fresh id
     * is allocated; with one, the row with that key is written (updated or inserted).
     */
    method SaveCustomer(pk: Option<nat>, c: CustomerFields) returns (r: Result<nat, SaveError>)
      requires Valid()
      modifies this
      ensures Valid()
      ensures r.Err? <==> CustomerSaveCheck(c).Some?
      ensures r.Err? ==> r.error == CustomerSaveCheck(c).value && unchanged(this)
      ensures r.Ok? ==> pk.Some? ==> r.value == pk.value
      ensures r.Ok? ==> pk.None? ==> r.value !in old(customers)
      ensures r.Ok? ==> customers == old(customers)[r.value := CustomerRecord(c.name.value, c.address.value)]
      ensures r.Ok? ==> products == old(products) && orders == old(orders)
    {
      var check := CustomerSaveCheck(c);
      if check.Some? {
        return Err(check.value);
      }
      var id: nat;
      if pk.Some? {
        id := pk.value;
        nextCustomerId := if id < nextCustomerId then nextCustomerId else id + 1;
      } else {
        id := nextCustomerId;
        nextCustomerId := nextCustomerId + 1;
      }
      customers := customers[id := CustomerRecord(c.name.value, c.address.value)];
      r := Ok(id);
    }

    /**
     * `Product.save`: the guard chain, then the write, which the NOT NULL name column can
     * still refuse. Updating a product keeps its association rows.
     */
    method SaveProduct(pk: Option<nat>, p: ProductFields) returns (r: Result<nat, SaveError>)
      requires Valid()
      modifies this
      ensures Valid()
      ensures r.Err? <==> ProductWriteCheck(p).Some?
      ensures r.Err? ==> r.error == ProductWriteCheck(p).value && unchanged(this)
      ensures r.Ok? ==> pk.Some? ==> r.value == pk.value
      ensures r.Ok? ==> pk.None? ==> r.value !in old(products)
      ensures r.Ok? ==> products == old(products)[r.value := ProductRow(p)]
      ensures r.Ok? ==> customers == old(customers) && orders == old(orders)
    {
      var check := ProductWriteCheck(p);
      if check.Some? {
        return Err(check.value);
      }
      var id: nat;
      if pk.Some? {
        id := pk.value;
        nextProductId := if id < nextProductId then nextProductId else id + 1;
      } else {
        id := nextProductId;
        nextProductId := nextProductId + 1;
      }
      products := products[id := ProductRow(p)];
      r := Ok(id);
    }

    /**
     * Saving an Order: it has no guard of its own, so only the database constraints
     * apply; a status outside the choices is written as it is. A new order has no
     * products; an updated one keeps its association rows.
     */
    method SaveOrder(pk: Option<nat>, o: OrderFields) returns (r: Result<nat, SaveError>)
      requires Valid()
      modifies this
      ensures Valid()
      ensures r.Err? <==> OrderSaveCheck(o, old(customers).Keys).Some?
      ensures r.Err? ==> r.error == OrderSaveCheck(o, old(customers).Keys).value && unchanged(this)
      ensures r.Ok? ==> pk.Some? ==> r.value == pk.value
      ensures r.Ok? ==> pk.None? ==> r.value !in old(orders)
      ensures r.Ok? ==> orders == old(orders)[r.value := OrderRecord(
                o.customer.value,
                if r.value in old(orders) then old(orders)[r.value].products else {},
                o.date, o.status.value)]
      ensures r.Ok? ==> customers == old(customers) && products == old(products)
    {
      var check := OrderSaveCheck(o, customers.Keys);
      if check.Some? {
        return Err(check.value);
      }
      var id: nat;
      if pk.Some? {
        id := pk.value;
        nextOrderId := if id < nextOrderId then nextOrderId else id + 1;
      } else {
        id := nextOrderId;
        nextOrderId := nextOrderId + 1;
      }
      var linked := if id in orders then orders[id].products else {};
      orders := orders[id := OrderRecord(o.customer.value, linked, o.date, o.status.value)];
      r := Ok(id);
    }

    /**
     * `order.products.add(...)`: associates the given products with a stored order.
     * Products already associated stay associated once. The total rises by the prices
     * of the newly associated products; the order stays fulfillable only if they are all available.
     */
    method AddProducts(orderId: nat, ids: set<nat>) returns (r: Result<(), LinkError>)
      requires Valid()
      modifies this
      ensures Valid()
      ensures r.Ok? <==> orderId in old(orders) && ids <= old(products).Keys
      ensures r == Err(UnsavedOrder) <==> orderId !in old(orders)
      ensures r.Err? ==> unchanged(this)
      ensures r.Ok? ==> orders == old(orders)[orderId := old(orders)[orderId].(products := old(orders)[orderId].products + ids)]
      ensures r.Ok? ==> customers == old(customers) && products == old(products)
      ensures r.Ok? ==> TotalPriceOf(orderId) == old(TotalPriceOf(orderId)) + TotalPrice(ids - old(orders)[orderId].products, products)
      ensures r.Ok? ==> (CanBeFulfilledOf(orderId) <==> old(CanBeFulfilledOf(orderId)) && CanBeFulfilled(ids, products))
    {
      if orderId !in orders {
        return Err(UnsavedOrder);
      }
      if !(ids <= products.Keys) {
        return Err(UnknownProduct);
      }
      var before := orders[orderId].products;
      orders := orders[orderId := orders[orderId].(products := before + ids)];
      TotalPriceUnion(before, ids - before, products);
      assert before + (ids - before) == before + ids;
      r := Ok(());
    }

    /**
     * `order.products.remove(...)`: drops the association rows of the given products;
     * ids that are not associated are ignored. The total falls by the prices of the
     * products that were associated.
     */
    method RemoveProducts(orderId: nat, ids: set<nat>) returns (r: Result<(), LinkError>)
      requires Valid()
      modifies this
      ensures Valid()
      ensures r.Ok? <==> orderId in old(orders)
      ensures r.Err? ==> r.error == UnsavedOrder && unchanged(this)
      ensures r.Ok? ==> orders == old(orders)[orderId := old(orders)[orderId].(products := old(orders)[orderId].products - ids)]
      ensures r.Ok? ==> customers == old(customers) && products == old(products)
      ensures r.Ok? ==> TotalPriceOf(orderId) == old(TotalPriceOf(orderId)) - TotalPrice(old(orders)[orderId].products * ids, products)
    {
      if orderId !in orders {
        return Err(UnsavedOrder);
      }
      var before := orders[orderId].products;
      orders := orders[orderId := orders[orderId].(products := before - ids)];
      TotalPriceDifference(before, ids, products);
      r := Ok(());
    }

    /**
     * Deleting a product: its row and every association row that names it disappear;
     * the orders survive, each total falling by that product's price where it was associated.
     */
    method DeleteProduct(id: nat) returns (deleted: bool)
      requires Valid()
      modifies this
      ensures Valid()
      ensures deleted <==> id in old(products)
      ensures products == old(products) - {id}
      ensures orders == Detach(old(orders), id)
      ensures customers == old(customers)
      ensures forall k :: k in orders ==>
                TotalPriceOf(k) == old(TotalPriceOf(k)) - (if id in old(orders)[k].products then old(products)[id].price else 0)
    {
      deleted := id in products;
      ghost var before := products;
      ghost var linked := orders;
      products := products - {id};
      orders := Detach(orders, id);
      forall k | k in orders
        ensures TotalPrice(orders[k].products, products) ==
                TotalPrice(linked[k].products, before) - (if id in linked[k].products then before[id].price else 0)
      {
        TotalPriceWithout(linked[k].products, before, id);
      }
    }

    /** Deleting a customer: the foreign key cascades, so that customer's orders go too. */
    method DeleteCustomer(id: nat) returns (deleted: bool)
      requires Valid()
      modifies this
      ensures Valid()
      ensures deleted <==> id in old(customers)
      ensures customers == old(customers) - {id}
      ensures orders == Cascade(old(orders), id)
      ensures products == old(products)
    {
      deleted := id in customers;
      customers := customers - {id};
      orders := Cascade(orders, id);
    }

    /** Deleting an order: its row and its association rows go; customers and products stay. */
    method DeleteOrder(id: nat) returns (deleted: bool)
      requires Valid()
      modifies this
      ensures Valid()
      ensures deleted <==> id in old(orders)
      ensures orders == old(orders) - {id}
      ensures customers == old(customers) && products == old(products)
    {
      deleted := id in orders;
      orders := orders - {id};
    }

    /** The handler of a create request that passed the permission check and the serializer. */
    method CreateAccepted(fields: ProductFields) returns (status: Policy.Status, data: map<nat, ProductRecord>)
      requires Valid()
      modifies this
      ensures Valid()
      ensures status == Policy.ServerError || status == Policy.Created
      ensures status == Policy.ServerError <==> ProductWriteCheck(fields).Some?
      ensures status == Policy.ServerError ==> unchanged(this) && data == map[]
      ensures status == Policy.Created ==>
                && |data| == 1 && data.Keys !! old(products).Keys
                && (forall k :: k in data ==> data[k] == ProductRow(fields))
                && products == old(products) + data
                && customers == old(customers) && orders == old(orders)
    {
      var r := SaveProduct(None, fields);
      if r.Err? {
        status, data := Policy.ServerError, map[];
      } else {
        status, data := Policy.Created, map[r.value := products[r.value]];
        assert products == old(products) + data;
      }
    }

    /** The handler of an update request on a stored product that passed the permission check and the serializer. */
    method UpdateAccepted(id: nat, patch: ProductPatch) returns (status: Policy.Status, data: map<nat, ProductRecord>)
      requires Valid() && id in products
      modifies this
      ensures Valid()
      ensures status == Policy.ServerError || status == Policy.Ok
      ensures status == Policy.ServerError <==> ProductWriteCheck(Patched(old(products)[id], patch)).Some?
      ensures status == Policy.ServerError ==> unchanged(this) && data == map[]
      ensures status == Policy.Ok ==>
                && products == old(products)[id := ProductRow(Patched(old(products)[id], patch))]
                && data == map[id := products[id]]
                && customers == old(customers) && orders == old(orders)
    {
      var r := SaveProduct(Some(id), Patched(products[id], patch));
      if r.Err? {
        status, data := Policy.ServerError, map[];
      } else {
        status, data := Policy.Ok, map[id := products[id]];
      }
    }

    /**
     * A request to the product endpoint from an authenticated principal. The status is the
     * one `Policy.Handle` decides, except that a body the serializer accepts can still fail
     * `Product.save`, whose exception the REST framework does not translate. Anything other
     * than a success leaves the store unchanged. `data` is the response body, keyed by id.
     */
    method ServeProduct(isAdmin: bool, req: ProductRequest) returns (status: Policy.Status, data: map<nat, ProductRecord>)
      requires Valid()
      modifies this
      ensures Valid()
      ensures var decided := Policy.Handle(Policy.Products, isAdmin, ActionOf(req), IdExists(req, old(products)), PayloadValid(req));
        && (status != Policy.ServerError ==> status == decided)
        && (status == Policy.ServerError <==>
              Policy.IsSuccess(decided) && (req.CreateProduct? || req.UpdateProduct?) &&
              ProductWriteCheck(Candidate(req, old(products))).Some?)
      ensures !Policy.IsSuccess(status) ==> unchanged(this) && data == map[]
      ensures status == Policy.Ok && req.ListProducts? ==> data == products && unchanged(this)
      ensures status == Policy.Ok && req.RetrieveProduct? ==> req.id in products && data == map[req.id := products[req.id]] && unchanged(this)
      ensures status == Policy.Created ==>
                && req.CreateProduct? && ProductWriteCheck(req.fields).None?
                && |data| == 1 && data.Keys !! old(products).Keys
                && (forall k :: k in data ==> data[k] == ProductRow(req.fields))
                && products == old(products) + data
                && customers == old(customers) && orders == old(orders)
      ensures status == Policy.Ok && req.UpdateProduct? ==>
                && req.id in old(products) && ProductWriteCheck(Patched(old(products)[req.id], req.patch)).None?
                && products == old(products)[req.id := ProductRow(Patched(old(products)[req.id], req.patch))]
                && data == map[req.id := products[req.id]]
                && customers == old(customers) && orders == old(orders)
      ensures status == Policy.NoContent ==>
                && req.DestroyProduct?
                && products == old(products) - {req.id} && |products| == |old(products)| - 1
                && orders == Detach(old(orders), req.id)
                && customers == old(customers) && data == map[]
    {
      var decided := Policy.Handle(Policy.Products, isAdmin, ActionOf(req), IdExists(req, products), PayloadValid(req));
      data := map[];
      if !Policy.IsSuccess(decided) {
        return decided, map[];
      }
      match req
      case ListProducts =>
        status, data := Policy.Ok, products;
      case RetrieveProduct(id) =>
        status, data := Policy.Ok, map[id := products[id]];
      case CreateProduct(fields, _) =>
        status, data := CreateAccepted(fields);
      case UpdateProduct(id, patch, _, _) =>
        status, data := UpdateAccepted(id, patch);
      case DestroyProduct(id) =>
        var _ := DeleteProduct(id);
        status := Policy.NoContent;
    }
  }
}
