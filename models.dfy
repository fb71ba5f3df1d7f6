/**
 * The three entities of the order-management application and the two layers of
 * checks that guard them: the guard chains of the `save` overrides, and the
 * field constraints that `full_clean` enforces from the field declarations.
 * Prices are integer cents: a DecimalField with two decimal places is fixed-point.
 */
module Models {
  import opened Wrappers

  // ---------------------------------------------------------------------------
  // Constants of the field declarations
  // ---------------------------------------------------------------------------

  const CustomerNameMaxLength: nat := 100
  const ProductNameMaxLength: nat := 255
  const StatusMaxLength: nat := 20
  /** `max_digits` of the price column; with two decimal places a price is at most 99999999.99. */
  const PriceMaxDigits: nat := 10

  /** The four values of `Order.STATUS_CHOICES`, in declaration order. */
  const StatusChoices: seq<string> := ["New", "In Process", "Sent", "Completed"]

  // ---------------------------------------------------------------------------
  // Stored records and unsaved field values
  // ---------------------------------------------------------------------------

  /** The columns an error can be attached to. */
  datatype FieldName = Name | Address | Price | Available | Customer | Status

  /** A Customer row as the store keeps it. */
  datatype CustomerRecord = CustomerRecord(name: string, address: string)

  /** A Product row; `price` is in cents. */
  datatype ProductRecord = ProductRecord(name: string, price: int, available: bool)

  /**
   * An Order row together with its association rows: `products` is the set of ids
   * of the products linked to it through the many-to-many relation.
   * `date` is an opaque timestamp supplied by the caller.
   */
  datatype OrderRecord = OrderRecord(customer: nat, products: set<nat>, date: int, status: string)

  /** The attributes of a Customer instance before it is saved; `None` is Python's None. */
  datatype CustomerFields = CustomerFields(name: Option<string>, address: Option<string>)

  /** The attributes of a Product instance before it is saved; `price` is in cents. */
  datatype ProductFields = ProductFields(name: Option<string>, price: Option<int>, available: Option<bool>)

  /** The attributes of an Order instance before it is saved; `customer` is the referenced id. */
  datatype OrderFields = OrderFields(customer: Option<nat>, date: int, status: Option<string>)

  // ---------------------------------------------------------------------------
  // The save() guard chains
  // ---------------------------------------------------------------------------

  /** Why a save was refused: by a guard of a `save` override, or by a database constraint. */
  datatype SaveError =
    | EmptyField(field: FieldName)        // Customer.save: name or address not specified
    | InvalidPrice                        // Product.save: price not a positive number
    | MissingAvailability                 // Product.save: availability not specified
    | NotNull(field: FieldName)           // a NOT NULL column written as NULL
    | UnknownReference(field: FieldName)  // a foreign key to a row that does not exist

  /** Python's `not v` on a text attribute: both None and the empty string are falsy. */
  predicate Falsy(v: Option<string>) {
    v.None? || v.value == ""
  }

  /** The guard chain of `Customer.save`: name first, then address. */
  function CustomerSaveCheck(c: CustomerFields): (r: Option<SaveError>)
    ensures r.None? <==> c.name.Some? && c.name.value != "" && c.address.Some? && c.address.value != ""
    ensures r == Some(EmptyField(Name)) <==> c.name.None? || c.name.value == ""
    ensures r == Some(EmptyField(Address)) <==>
              c.name.Some? && c.name.value != "" && (c.address.None? || c.address.value == "")
  {
    if Falsy(c.name) then Some(EmptyField(Name))
    else if Falsy(c.address) then Some(EmptyField(Address))
    else None
  }

  /** The guard chain of `Product.save`: the price check runs before the availability check. */
  function ProductSaveCheck(p: ProductFields): (r: Option<SaveError>)
    ensures r.None? <==> p.price.Some? && p.price.value > 0 && p.available.Some?
    ensures r == Some(InvalidPrice) <==> p.price.None? || p.price.value <= 0
    ensures r == Some(MissingAvailability) <==> p.price.Some? && p.price.value > 0 && p.available.None?
  {
    if p.price.None? || p.price.value <= 0 then Some(InvalidPrice)
    else if p.available.None? then Some(MissingAvailability)
    else None
  }

  /**
   * Everything that can stop `Product.save`: its guard chain, and then the NOT NULL
   * constraint on the name column, which the guard does not look at.
   */
  function ProductWriteCheck(p: ProductFields): (r: Option<SaveError>)
    ensures r.None? <==> ProductSaveCheck(p).None? && p.name.Some?
    ensures ProductSaveCheck(p).Some? ==> r == ProductSaveCheck(p)
  {
    if ProductSaveCheck(p).Some? then ProductSaveCheck(p)
    else if p.name.None? then Some(NotNull(Name))
    else None
  }

  /**
   * The constraints the database itself enforces when an Order row is written:
   * `customer_id` and `status` are NOT NULL, and `customer_id` is a foreign key.
   * `Order` has no `save` override, so its status is not checked against the choices here.
   * The NOT NULL checks follow the table's column order (status before customer_id), and
   * the foreign key is checked only once the row has no NULL in it.
   */
  function OrderSaveCheck(o: OrderFields, customerIds: set<nat>): (r: Option<SaveError>)
    ensures r.None? <==> o.customer.Some? && o.customer.value in customerIds && o.status.Some?
    ensures r == Some(NotNull(Status)) <==> o.status.None?
    ensures r == Some(NotNull(Customer)) <==> o.status.Some? && o.customer.None?
    ensures r == Some(UnknownReference(Customer)) <==>
              o.customer.Some? && o.status.Some? && o.customer.value !in customerIds
  {
    if o.status.None? then Some(NotNull(Status))
    else if o.customer.None? then Some(NotNull(Customer))
    else if o.customer.value !in customerIds then Some(UnknownReference(Customer))
    else None
  }

  // ---------------------------------------------------------------------------
  // full_clean: the field constraints
  // ---------------------------------------------------------------------------

  /** The error a single field reports from `full_clean`. */
  datatype FieldError =
    | Null                     // the field is None and the column is not nullable
    | Blank                    // the field is empty and `blank=False`
    | TooLong(limit: nat)      // more characters than `max_length`
    | TooManyDigits(limit: nat) // more digits than `max_digits`
    | NotBoolean               // a BooleanField holding something other than True or False
    | InvalidChoice            // a value outside `choices`
    | DoesNotExist             // a foreign key to a row that does not exist

  /** Number of decimal digits of `n`, counting `0` as one digit. */
  function DigitCount(n: nat): (d: nat)
    ensures d >= 1
  {
    if n < 10 then 1 else 1 + DigitCount(n / 10)
  }

  function Pow10(k: nat): (p: nat)
    ensures p >= 1
  {
    if k == 0 then 1 else 10 * Pow10(k - 1)
  }

  /** `n` has at most `k` digits exactly when it is below `10^k`. */
  lemma {:induction false} DigitCountBound(n: nat, k: nat)
    requires k >= 1
    ensures DigitCount(n) <= k <==> n < Pow10(k)
    decreases k
  {
    if n >= 10 && k > 1 {
      DigitCountBound(n / 10, k - 1);
    } else if n >= 10 {
      assert Pow10(1) == 10;
    } else if k > 1 {
      assert Pow10(k) == 10 * Pow10(k - 1);
    }
  }

  function Abs(x: int): nat {
    if x < 0 then -x else x
  }

  /** Clean a CharField with `max_length`: nullness, then blankness, then the length validator. */
  function CharFieldError(v: Option<string>, maxLength: nat): (e: Option<FieldError>)
    ensures e.None? <==> v.Some? && 0 < |v.value| <= maxLength
  {
    if v.None? then Some(Null)
    else if v.value == "" then Some(Blank)
    else if |v.value| > maxLength then Some(TooLong(maxLength))
    else None
  }

  /** Clean a TextField: it has no length limit. */
  function TextFieldError(v: Option<string>): (e: Option<FieldError>)
    ensures e.None? <==> v.Some? && v.value != ""
  {
    if v.None? then Some(Null)
    else if v.value == "" then Some(Blank)
    else None
  }

  /**
   * Clean the price DecimalField. A value in cents always has two decimal places, so
   * only the total number of digits can exceed the declaration.
   */
  function PriceFieldError(v: Option<int>): (e: Option<FieldError>)
    ensures e.None? <==> v.Some? && Abs(v.value) < Pow10(PriceMaxDigits)
  {
    if v.None? then Some(Null)
    else
      DigitCountBound(Abs(v.value), PriceMaxDigits);
      if DigitCount(Abs(v.value)) > PriceMaxDigits then Some(TooManyDigits(PriceMaxDigits))
      else None
  }

  /** Clean a non-nullable BooleanField: None is neither True nor False. */
  function BooleanFieldError(v: Option<bool>): (e: Option<FieldError>)
    ensures e.None? <==> v.Some?
  {
    if v.None? then Some(NotBoolean) else None
  }

  /** Clean the status CharField: the choices check comes first, then nullness, blankness and length. */
  function StatusFieldError(v: Option<string>): (e: Option<FieldError>)
    ensures e.None? <==> v.Some? && v.value in StatusChoices
  {
    if v.Some? && v.value != "" && v.value !in StatusChoices then Some(InvalidChoice)
    else if v.None? then Some(Null)
    else if v.value == "" then Some(Blank)
    else if |v.value| > StatusMaxLength then Some(TooLong(StatusMaxLength))
    else None
  }

  /** Clean a required foreign key against the ids of the rows it may reference. */
  function ForeignKeyError(v: Option<nat>, ids: set<nat>): (e: Option<FieldError>)
    ensures e.None? <==> v.Some? && v.value in ids
  {
    if v.None? then Some(Null)
    else if v.value !in ids then Some(DoesNotExist)
    else None
  }

  /** Record the error of one field, if there is one. */
  function WithError(errors: map<FieldName, FieldError>, f: FieldName, e: Option<FieldError>): (r: map<FieldName, FieldError>)
  {
    if e.Some? then errors[f := e.value] else errors
  }

  /** `Customer.full_clean()`: the per-field errors, empty when the instance is clean. */
  function CustomerErrors(c: CustomerFields): (errors: map<FieldName, FieldError>)
    ensures errors.Keys <= {Name, Address}
    ensures Name !in errors <==> c.name.Some? && 0 < |c.name.value| <= CustomerNameMaxLength
    ensures Address !in errors <==> c.address.Some? && c.address.value != ""
  {
    var e := WithError(map[], Name, CharFieldError(c.name, CustomerNameMaxLength));
    WithError(e, Address, TextFieldError(c.address))
  }

  /** `Product.full_clean()`: the per-field errors, empty when the instance is clean. */
  function ProductErrors(p: ProductFields): (errors: map<FieldName, FieldError>)
    ensures errors.Keys <= {Name, Price, Available}
    ensures Name !in errors <==> p.name.Some? && 0 < |p.name.value| <= ProductNameMaxLength
    ensures Price !in errors <==> p.price.Some? && Abs(p.price.value) < Pow10(PriceMaxDigits)
    ensures Available !in errors <==> p.available.Some?
  {
    var e := WithError(map[], Name, CharFieldError(p.name, ProductNameMaxLength));
    var e' := WithError(e, Price, PriceFieldError(p.price));
    WithError(e', Available, BooleanFieldError(p.available))
  }

  /**
   * `Order.full_clean()` against the ids of the stored customers; the date has a
   * default and the many-to-many relation is not cleaned.
   */
  function OrderErrors(o: OrderFields, customerIds: set<nat>): (errors: map<FieldName, FieldError>)
    ensures errors.Keys <= {Customer, Status}
    ensures Customer !in errors <==> o.customer.Some? && o.customer.value in customerIds
    ensures Status !in errors <==> o.status.Some? && o.status.value in StatusChoices
  {
    var e := WithError(map[], Customer, ForeignKeyError(o.customer, customerIds));
    WithError(e, Status, StatusFieldError(o.status))
  }

  // ---------------------------------------------------------------------------
  // How the two layers relate
  // ---------------------------------------------------------------------------

  /** A customer that `full_clean` accepts also passes the `save` guard. */
  lemma CleanCustomerSaves(c: CustomerFields)
    requires CustomerErrors(c) == map[]
    ensures CustomerSaveCheck(c).None?
  {
    assert Name !in CustomerErrors(c) && Address !in CustomerErrors(c);
  }

  /**
   * The layers are not ordered for products: the `save` guard lets an empty name
   * through, and `full_clean` lets a zero price through.
   */
  lemma ProductLayersDiffer()
    ensures ProductSaveCheck(ProductFields(Some(""), Some(199), Some(true))).None?
    ensures Name in ProductErrors(ProductFields(Some(""), Some(199), Some(true)))
    ensures ProductSaveCheck(ProductFields(Some("Free"), Some(0), Some(true))) == Some(InvalidPrice)
    ensures ProductErrors(ProductFields(Some("Free"), Some(0), Some(true))) == map[]
  {
    var free := ProductFields(Some("Free"), Some(0), Some(true));
    assert Name !in ProductErrors(free) && Price !in ProductErrors(free) && Available !in ProductErrors(free);
  }

  /** The edge prices 0.01 and 9999999.99 pass both layers; 100000000.00 has eleven digits. */
  lemma EdgePrices()
    ensures ProductSaveCheck(ProductFields(Some("Min"), Some(1), Some(true))).None?
    ensures ProductErrors(ProductFields(Some("Min"), Some(1), Some(true))) == map[]
    ensures ProductSaveCheck(ProductFields(Some("Max"), Some(999_999_999), Some(true))).None?
    ensures ProductErrors(ProductFields(Some("Max"), Some(999_999_999), Some(true))) == map[]
    ensures Price in ProductErrors(ProductFields(Some("Big"), Some(10_000_000_000), Some(true)))
  {
    var lo := ProductFields(Some("Min"), Some(1), Some(true));
    var hi := ProductFields(Some("Max"), Some(999_999_999), Some(true));
    assert Pow10(PriceMaxDigits) == 10_000_000_000;
    assert Name !in ProductErrors(lo) && Price !in ProductErrors(lo) && Available !in ProductErrors(lo);
    assert Name !in ProductErrors(hi) && Price !in ProductErrors(hi) && Available !in ProductErrors(hi);
  }

  /** The status values the tests try: a valid choice, an unknown word, and None. */
  lemma StatusExamples(customerIds: set<nat>, id: nat)
    requires id in customerIds
    ensures OrderErrors(OrderFields(Some(id), 0, Some("New")), customerIds) == map[]
    ensures Status in OrderErrors(OrderFields(Some(id), 0, Some("InvalidStatus")), customerIds)
    ensures Status in OrderErrors(OrderFields(Some(id), 0, None), customerIds)
    ensures Customer in OrderErrors(OrderFields(None, 0, Some("New")), customerIds)
  {
    var ok := OrderFields(Some(id), 0, Some("New"));
    assert Customer !in OrderErrors(ok, customerIds) && Status !in OrderErrors(ok, customerIds);
  }
}
