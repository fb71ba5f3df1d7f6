# Order management core, modelled in Dafny

The application keeps three entities: Customer, Product and Order. An Order references one
Customer and any number of Products through a many-to-many relation. A REST API exposes
the entities to authenticated users; only administrators may write. This project models
three parts of it:

- **Domain validation** (`models.dfy`, module `Models`). There are two layers of checks.
  The first is the guard chain of each `save` override: `Customer.save` refuses an empty
  or missing name or address, and `Product.save` refuses a missing or non-positive price
  and then a missing availability. The second is the field constraints that `full_clean`
  derives from the field declarations: maximum lengths, no blanks, at most ten digits in
  a price, a boolean availability, a status among the four choices and an existing
  customer. `full_clean` reports one error per field, so the model returns a map from
  field to error.
- **Order aggregation** (`aggregation.dfy`, module `Aggregation`). The total price is the
  sum over the associated products, and 0 when there are none. An order can be fulfilled
  when every associated product is available. Both are folds over the set of associated
  product ids, and lemmas describe how adding or removing association rows changes them.
- **The store and the access policy** (`store.dfy`, module `Store`; `policy.dfy`, module
  `Policy`). `Database` is a class holding id-to-record maps. Its methods save, link, unlink
  and delete records, and a refused write leaves the store unchanged. `Policy.Handle`
  decides the response to a request in a fixed order: permission first, then the
  existence lookup, then body validation. `Store.Database.ServeProduct` ties that decision to the
  store effects of the product endpoint.
- `scenarios.dfy` (module `Scenarios`) replays the repository's model and API tests
  against the store's contracts.

Prices are integer cents. A `DecimalField(max_digits=10, decimal_places=2)` is fixed-point:
a price of 9999999.99 is `999_999_999` cents, and ten digits means an absolute value below
`10^10` cents.

Three points of the code's behaviour that the model keeps as written:

- `Order` has no `save` override. Saving an order checks only what the database enforces:
  `customer_id` and `status` must not be NULL, and the customer must exist. A status
  outside the four choices is stored as it is, and only `full_clean` rejects it.
- The `save` guards and `full_clean` do not agree. `Product.save` stores a product whose
  name is `""`, and `full_clean` accepts a price of 0. The repository's tests wrap
  `objects.create` and `full_clean` in one block, so either layer satisfies them
  (`Models.ProductLayersDiffer`).
- `Customer.save` raises a different message for the name and for the address. The error
  therefore records which field was empty: `EmptyField(Name)` or `EmptyField(Address)`.

## Model

| member | source | states |
|---|---|---|
| `Models.CustomerSaveCheck` | django_project/django_app/models.py:14-18 | a customer passes the guard exactly when both name and address are present and non-empty; a falsy name is reported before the address |
| `Models.ProductSaveCheck` | django_project/django_app/models.py:32-36 | a product passes exactly when its price is present and positive and its availability is present (False is accepted); a bad price is reported even when availability is also missing |
| `Models.ProductWriteCheck` | django_project/django_app/models.py:32-37 | the write goes through exactly when the guard passes and the NOT NULL name column gets a value; a guard error takes precedence |
| `Models.OrderSaveCheck` | django_project/django_app/models.py:48-52 | an order row is written exactly when its customer is given and exists and its status is not None; a missing status is reported before a missing customer, following the column order of migrations/0001_initial.py; the status is not compared with the choices |
| `Models.CustomerErrors` | django_project/django_app/models.py:7-9 | `full_clean` flags the name exactly when it is missing, empty or over 100 characters, and the address exactly when it is missing or empty |
| `Models.ProductErrors` | django_project/django_app/models.py:23-26 | `full_clean` flags the name (missing, empty, over 255), the price (missing, or 10^10 cents or more in absolute value) and availability (None) independently |
| `Models.OrderErrors` | django_project/django_app/models.py:41-52 | `full_clean` flags the customer exactly when it is missing or unknown, and the status exactly when it is not one of New, In Process, Sent, Completed |
| `Models.StatusFieldError` | django_project/django_app/models.py:41-52 | the status field is clean exactly when it is one of the four choices, so its 20-character limit never fires on its own |
| `Models.PriceFieldError` | django_project/django_app/models.py:25 | the price field is clean exactly when it is present and below 10^10 cents in absolute value |
| `Models.TextFieldError` | django_project/django_app/models.py:9 | a TextField is clean exactly when it is present and non-empty; it has no length limit |
| `Models.BooleanFieldError` | django_project/django_app/models.py:26 | a BooleanField is clean exactly when it holds a value |
| `Models.ForeignKeyError` | django_project/django_app/models.py:49 | a foreign key is clean exactly when it is given and names a stored customer |
| `Models.CharFieldError` | django_project/django_app/models.py:8 | a CharField is clean exactly when it is present, non-empty and within `max_length` |
| `Models.DigitCountBound` | django_project/django_app/models.py:25 | a number has at most k digits exactly when it is below 10^k, so the `max_digits` check is a bound on the cents |
| `Models.CleanCustomerSaves` | django_project/django_app/models.py:14-19 | a customer that `full_clean` accepts also passes the `save` guard |
| `Models.ProductLayersDiffer` | django_project/django_app/models.py:24-36 | the product guard stores an empty name that `full_clean` rejects, and `full_clean` accepts a zero price that the guard rejects |
| `Models.EdgePrices` | django_project/django_app/tests/test_models.py:43-48 | 0.01 and 9999999.99 pass both layers; 100000000.00 exceeds ten digits |
| `Models.StatusExamples` | django_project/django_app/tests/test_models.py:91-104 | "New" with an existing customer is clean; "InvalidStatus", a None status and a None customer are each flagged |
| `Aggregation.TotalPrice` | django_project/django_app/models.py:57-59 | the sum over the associated products, 0 with none; with positive prices it is at least the number of products |
| `Aggregation.CanBeFulfilled` | django_project/django_app/models.py:61-62 | true exactly when every associated product is available, hence true with none |
| `Aggregation.TotalPriceRemove` | django_project/django_app/models.py:57-59 | the total equals the price of any one associated product plus the total of the rest |
| `Aggregation.TotalPriceAdd` | django_project/django_app/models.py:57-59 | associating one more product raises the total by exactly its price |
| `Aggregation.TotalPriceUnion` | django_project/django_app/models.py:57-59 | the total over two disjoint groups is the sum of their totals, whatever order the rows were added in |
| `Aggregation.TotalPriceDifference` | django_project/django_app/models.py:57-59 | removing a set of products lowers the total by the total of those that were associated |
| `Aggregation.TotalPriceFrame` | django_project/django_app/models.py:57-59 | the total depends only on the prices of the associated products |
| `Aggregation.TotalPriceWithout` | django_project/django_app/models.py:50 | deleting a product and its association rows lowers the total by its price when it was associated and leaves it unchanged otherwise |
| `Aggregation.EmptyOrder` | django_project/django_app/models.py:57-62 | an order with no products totals exactly 0 and can be fulfilled |
| `Aggregation.TotalPricePositive` | django_project/django_app/models.py:57-59 | with positive prices the total is positive exactly when some product is associated |
| `Aggregation.RemoveOnlyUnavailable` | django_project/django_app/tests/test_models.py:117-125 | with one unavailable product the order cannot be fulfilled, and removing that product makes it fulfillable |
| `Aggregation.TotalPricePair` | django_project/django_app/tests/test_models.py:106-110 | two distinct products total the sum of their two prices |
| `Aggregation.TwoProductScenario` | django_project/django_app/tests/test_models.py:106-125 | 10.00 and 20.00 total 30.00; with the 20.00 product unavailable the order cannot be fulfilled until it is removed |
| `Policy.PermissionClasses` | django_project/django_app/views.py:12-25 | every viewset lists `IsAdminOrReadOnly` among its permission classes |
| `Policy.AllGrant` | django_project/django_app/views.py:13 | a request passes a list of permission classes exactly when each class grants it |
| `Policy.Permitted` | django_project/django_app/views.py:13 | an authenticated request is permitted exactly when it is a read or comes from an admin |
| `Policy.Handle` | django_project/django_app/views.py:12-25 | forbidden exactly for a regular user's write; not found exactly for a permitted request on a missing object; bad request exactly for an admin's invalid body on an existing or new object; otherwise success with 200, 201 or 204 |
| `Policy.PolicyUniform` | django_project/django_app/views.py:12-25 | products, customers and orders have the same permission classes and get the same response to the same request |
| `Policy.ReadsOpen` | django_project/django_app/tests/test_models.py:137-173 | listing, and reading an existing object, answer 200 for regular users and admins |
| `Policy.UnknownReadNotFound` | django_project/django_app/tests/test_models.py:247-257 | reading an unknown id answers 404 for regular users and admins |
| `Policy.AuthorizationBeforeValidation` | django_project/django_app/tests/test_models.py:233-271 | an invalid body is forbidden for a regular user and a bad request for an admin |
| `Policy.AuthorizationBeforeLookup` | django_project/django_app/tests/test_models.py:273-283 | deleting an unknown id is forbidden for a regular user and not found for an admin |
| `Store.Patched` | django_project/django_app/tests/test_models.py:199-207 | fields left out of an update body keep their stored values; supplied fields replace them |
| `Store.Detach` | django_project/django_app/models.py:50 | deleting a product keeps every order and removes only that product's association rows |
| `Store.Cascade` | django_project/django_app/models.py:49 | deleting a customer removes exactly the orders that reference it |
| `Store.Database.SaveCustomer` | django_project/django_app/models.py:14-19 | a refused customer leaves the store unchanged with the guard's error; otherwise exactly one customer row is written, under a fresh id or the given key |
| `Store.Database.SaveProduct` | django_project/django_app/models.py:32-37 | a refused product leaves the store unchanged; otherwise exactly one product row is written with a positive price, and association rows are kept |
| `Store.Database.SaveOrder` | django_project/django_app/models.py:48-52 | an order without a customer or status, or with an unknown customer, leaves the store unchanged; otherwise one order row is written, with no products when new |
| `Store.Database.AddProducts` | django_project/django_app/models.py:50 | linking stored products to a stored order adds exactly those association rows; the total rises by the prices of the newly linked products, and fulfilment needs them all available |
| `Store.Database.RemoveProducts` | django_project/django_app/models.py:50 | unlinking removes exactly those association rows and lowers the total by the prices of the products that were linked |
| `Store.Database.DeleteProduct` | django_project/django_app/models.py:50 | the product row and its association rows go, the orders stay, and each total falls by the product's price where it was linked |
| `Store.Database.DeleteCustomer` | django_project/django_app/models.py:49 | the customer row goes and the deletion cascades to that customer's orders |
| `Store.Database.DeleteOrder` | django_project/django_app/models.py:48-50 | the order row and its association rows go; customers and products stay |
| `Store.Database.CreateAccepted` | django_project/django_app/tests/test_models.py:182-190 | a permitted, serializer-valid create stores exactly one new product and returns it, or fails in `save` and stores nothing |
| `Store.Database.UpdateAccepted` | django_project/django_app/tests/test_models.py:199-207 | a permitted, serializer-valid update rewrites exactly that product from the patched fields and returns it, or fails in `save` and changes nothing |
| `Store.Database.ServeProduct` | django_project/django_app/views.py:12-15 | the product endpoint answers what `Handle` decides, except for a server error when `save` refuses the body; anything but a success leaves the store unchanged; a delete removes exactly that product |
| `Scenarios.OrderFixture` | django_project/django_app/tests/test_models.py:79-82 | the order tests' fixture: a customer, two products and an order with no products |
| `Scenarios.OrderAggregation` | django_project/django_app/tests/test_models.py:106-125 | linking both fixture products to a stored order gives a total of 30.00 and an order that cannot be fulfilled; unlinking the unavailable one leaves one product and a fulfillable order |
| `Scenarios.CustomerWithoutName` | django_project/django_app/tests/test_models.py:62-65 | a customer with an empty name is refused with the name error and nothing is stored |
| `Scenarios.ProductFixture` | django_project/django_app/tests/test_models.py:129-135 | the API tests' fixture: one product "Temporary Product" at 1.99 |
| `Scenarios.ListAsAnyone` | django_project/django_app/tests/test_models.py:137-155 | listing answers 200 to both kinds of user, and each listing holds exactly one product, "Temporary Product" at 1.99, available |
| `Scenarios.RetrieveAsAnyone` | django_project/django_app/tests/test_models.py:157-173 | reading the product answers 200 to both kinds of user, and each response holds "Temporary Product" at 1.99, available |
| `Scenarios.CreateAsEach` | django_project/django_app/tests/test_models.py:175-190 | a regular user's create is 403 and stores nothing; an admin's is 201, the response holds "Temporary Product 2" at 4.99, available, and the store holds a second product |
| `Scenarios.RenameAsEach` | django_project/django_app/tests/test_models.py:192-207 | a regular user's rename is 403; an admin's is 200 and keeps price 1.99 and availability |
| `Scenarios.DeleteAsEach` | django_project/django_app/tests/test_models.py:209-220 | a regular user's delete is 403; an admin's is 204 and leaves no product |
| `Scenarios.InvalidBody` | django_project/django_app/tests/test_models.py:233-271 | an invalid create or update body is 403 for a regular user and 400 for an admin |
| `Scenarios.ReadUnknown` | django_project/django_app/tests/test_models.py:247-257 | reading an unknown id is 404 for both kinds of user |
| `Scenarios.DeleteUnknown` | django_project/django_app/tests/test_models.py:273-283 | deleting an unknown id is 403 for a regular user and 404 for an admin |

## Left out

- Prices with more than two decimal places, such as 1.999 in test_models.py:50-53, cannot be expressed in cents. The `decimal_places=2` constraint therefore holds by construction, and only `max_digits` is checked.
- The serializers, the form and `permissions.py` are not part of this model. Whether a request body is valid is a parameter of `Handle` and of `ProductRequest`. The behaviour of `IsAdminOrReadOnly` is taken from the API tests.
- The response format is not modelled. In particular, prices are rendered as strings such as "1.99". The response body is modelled as the map of returned records.
- Store effects are modelled for the product endpoint only. For the customer and order endpoints the model states just the status decision, which is the same `Handle`. Their request bodies come from serializers that are not part of this model.
- Unauthenticated requests are left out. The principal arrives already authenticated, and only its admin flag is modelled. Token issuance and routing (urls.py) are external.
- HEAD and OPTIONS requests are left out. Reads are GET list and GET detail.
- The HTML views (views.py:27-46) are left out. Their `permission_classes` attribute is not consulted by those generic views.
- `Order.date` defaults to the current time. The clock is external, so the date is an opaque number supplied by the caller.
- `__str__` methods are display only and are left out.
- Database constraints are modelled as rejections at write time. Deferred foreign-key checking, transactions and concurrent requests are left out.
- `max_length` and `max_digits` are not enforced on save. `Store.Database.SaveProduct` stores a price of 10^10 cents or more, and only `full_clean` rejects it. Whether the database enforces either limit depends on the backend, so the model checks them only in `full_clean`.
- Bulk writes that bypass `save`, such as `QuerySet.update`, are left out.
- `Aggregation.TotalPrice` and `Aggregation.CanBeFulfilled` are ghost functions over the set of associated ids. Both are pure folds. The total is in cents and is not a `Decimal`.
- `Store.Database.ServeProduct` answers a server error when a body passes the serializer but `Product.save` then refuses it. This is the model's reading: the REST framework does not translate the model's own `ValidationError`.
- The migrations, the superseded models under lab4_exercise, and the sample-data command are left out. They are generated schema history, earlier floating-point versions of the models, and I/O without logic of its own.
