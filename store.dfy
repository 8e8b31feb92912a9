/**
 * The database the views work on, as one value: every table a sequence whose
 * indices are the row ids, and the catalogue a map from slug to product. The
 * queries of the views (`filter(...)[0]`, `get(...)`) are first-match and
 * unique-match lookups, and `Valid` is the invariant every view keeps.
 */
module Store {
  import opened Wrappers
  import opened Models
  import opened RefCodes

  /** The user behind a request; `is_authenticated` is false for an anonymous one. */
  datatype Requester = Anonymous | Authenticated(id: UserId)

  datatype Db = Db(
    products: map<Slug, Product>,
    coupons: seq<Coupon>,
    lineItems: seq<LineItem>,
    orders: seq<Order>,
    addresses: seq<Address>,
    payments: seq<Payment>,
    refunds: seq<Refund>)

  // ---------------------------------------------------------------------------
  // Queries

  /** `filter(...)[0]` when the queryset exists: the first row that matches, by id. */
  function FirstMatch<T>(s: seq<T>, p: T -> bool): (r: Option<nat>)
    ensures r.Some? ==> r.value < |s| && p(s[r.value]) && forall j :: 0 <= j < r.value ==> !p(s[j])
    ensures r.None? ==> forall j :: 0 <= j < |s| ==> !p(s[j])
  {
    if s == [] then None
    else if p(s[0]) then Some(0)
    else
      match FirstMatch(s[1..], p)
      case None => None
      case Some(i) => Some(i + 1)
  }

  /** The three answers of `objects.get(...)`: DoesNotExist, the row, MultipleObjectsReturned. */
  datatype Lookup = Missing | Found(index: nat) | Ambiguous

  function Get<T>(s: seq<T>, p: T -> bool): (r: Lookup)
    ensures r.Missing? <==> forall j :: 0 <= j < |s| ==> !p(s[j])
    ensures r.Found? ==> r.index < |s| && p(s[r.index]) && forall j :: 0 <= j < |s| && j != r.index ==> !p(s[j])
    ensures r.Ambiguous? ==> exists i, j :: 0 <= i < j < |s| && p(s[i]) && p(s[j])
  {
    match FirstMatch(s, p)
    case None => Missing
    case Some(i) =>
      match FirstMatch(s[i + 1..], p)
      case None =>
        assert forall j :: i < j < |s| ==> s[j] == s[i + 1..][j - i - 1];
        Found(i)
      case Some(k) =>
        assert s[i + 1..][k] == s[i + 1 + k];
        Ambiguous
  }

  /** The user's cart: an order of theirs that is not yet paid for. */
  predicate IsOpenOrderOf(o: Order, u: UserId)
  {
    o.user == u && !o.ordered
  }

  function OpenOrderOf(db: Db, u: UserId): Option<nat>
  {
    FirstMatch(db.orders, (o: Order) => IsOpenOrderOf(o, u))
  }

  /** `ShoppingCartOrder.objects.get(user=..., ordered=False)`. */
  function OpenOrderLookup(db: Db, u: UserId): Lookup
  {
    Get(db.orders, (o: Order) => IsOpenOrderOf(o, u))
  }

  /** The row `ShoppingCartOrderItem` keys on: (product, user, ordered=False). */
  predicate IsCartLineOf(it: LineItem, u: UserId, slug: Slug)
  {
    it.user == u && it.product == slug && !it.ordered
  }

  function CartLineOf(db: Db, u: UserId, slug: Slug): Option<nat>
  {
    FirstMatch(db.lineItems, (it: LineItem) => IsCartLineOf(it, u, slug))
  }

  predicate IsDefaultAddressOf(a: Address, u: UserId, kind: AddressKind)
  {
    a.user == u && a.kind == kind && a.isDefault
  }

  function DefaultAddressOf(db: Db, u: UserId, kind: AddressKind): Option<nat>
  {
    FirstMatch(db.addresses, (a: Address) => IsDefaultAddressOf(a, u, kind))
  }

  // ---------------------------------------------------------------------------
  // The invariant

  /** Every line names a catalogued product and holds at least one unit. */
  ghost predicate LinesWellFormed(db: Db)
  {
    forall i :: 0 <= i < |db.lineItems| ==> db.lineItems[i].product in db.products && db.lineItems[i].quantity >= 1
  }

  /** At most one unordered line per (user, product): what `get_or_create` relies on. */
  ghost predicate OneCartLinePerProduct(lines: seq<LineItem>)
  {
    forall i, j ::
      (0 <= i < |lines| && 0 <= j < |lines| && !lines[i].ordered && !lines[j].ordered
       && lines[i].user == lines[j].user && lines[i].product == lines[j].product) ==> i == j
  }

  /** At most one open cart per user: what `filter(user=..., ordered=False)[0]` relies on. */
  ghost predicate OneOpenOrderPerUser(orders: seq<Order>)
  {
    forall i, j ::
      (0 <= i < |orders| && 0 <= j < |orders| && !orders[i].ordered && !orders[j].ordered
       && orders[i].user == orders[j].user) ==> i == j
  }

  /** An order's references exist, its lines are distinct, and an open order holds only its user's unordered lines. */
  ghost predicate OrderWellFormed(db: Db, ord: Order)
  {
    && NoDup(ord.items)
    && (forall x :: x in ord.items ==>
          (x < |db.lineItems| && (!ord.ordered ==> IsCartLineOf(db.lineItems[x], ord.user, db.lineItems[x].product))))
    && (ord.shipping.Some? ==> ord.shipping.value < |db.addresses|)
    && (ord.billing.Some? ==> ord.billing.value < |db.addresses|)
    && (ord.payment.Some? ==> ord.payment.value < |db.payments|)
    && (ord.coupon.Some? ==> ord.coupon.value < |db.coupons|)
    && (ord.ordered ==> IsRefCode(ord.refCode))
    && (!ord.ordered ==> ord.refCode == "")
  }

  ghost predicate OrdersWellFormed(db: Db)
  {
    forall o :: 0 <= o < |db.orders| ==> OrderWellFormed(db, db.orders[o])
  }

  ghost predicate RefundsWellFormed(db: Db)
  {
    forall r :: 0 <= r < |db.refunds| ==> db.refunds[r].order < |db.orders|
  }

  ghost predicate Valid(db: Db)
  {
    && LinesWellFormed(db)
    && OneCartLinePerProduct(db.lineItems)
    && OneOpenOrderPerUser(db.orders)
    && OrdersWellFormed(db)
    && RefundsWellFormed(db)
  }

  /** An empty store over a catalogue and a coupon table is valid. */
  lemma EmptyStoreValid(products: map<Slug, Product>, coupons: seq<Coupon>)
    ensures Valid(Db(products, coupons, [], [], [], [], []))
  {
  }

  lemma ValidOrderPriced(db: Db, o: nat)
    requires Valid(db) && o < |db.orders|
    ensures Priced(db.orders[o].items, db.lineItems, db.products)
  {
    assert OrderWellFormed(db, db.orders[o]);
  }

  /** ShoppingCartOrder.get_total in cents. */
  function OrderTotal(db: Db, o: nat): int
    requires Valid(db) && o < |db.orders|
  {
    ValidOrderPriced(db, o);
    var ord := db.orders[o];
    assert OrderWellFormed(db, ord);
    ApplyCoupon(Subtotal(ord.items, db.lineItems, db.products),
                if ord.coupon.Some? then Some(db.coupons[ord.coupon.value]) else None)
  }

  /** The coupon is taken off exactly once, and an empty order without a coupon totals 0. */
  lemma OrderTotalParts(db: Db, o: nat)
    requires Valid(db) && o < |db.orders|
    ensures Priced(db.orders[o].items, db.lineItems, db.products)
    ensures db.orders[o].coupon.None? ==> OrderTotal(db, o) == Subtotal(db.orders[o].items, db.lineItems, db.products)
    ensures db.orders[o].coupon.Some? ==>
              (db.orders[o].coupon.value < |db.coupons| &&
               OrderTotal(db, o) == Subtotal(db.orders[o].items, db.lineItems, db.products) - 100 * db.coupons[db.orders[o].coupon.value].amount)
    ensures db.orders[o].items == [] && db.orders[o].coupon.None? ==> OrderTotal(db, o) == 0
  {
    ValidOrderPriced(db, o);
    assert OrderWellFormed(db, db.orders[o]);
  }

  /** In a valid store the user's open cart is the only one, so `get` and `filter(...)[0]` agree. */
  lemma OpenOrderIsUnique(db: Db, u: UserId, o: nat)
    requires Valid(db) && o < |db.orders| && IsOpenOrderOf(db.orders[o], u)
    ensures OpenOrderOf(db, u) == Some(o)
  {
  }

  /** In a valid store `get` never finds two open carts, and finds the one `filter(...)[0]` finds. */
  lemma OpenOrderLookupAgrees(db: Db, u: UserId)
    requires Valid(db)
    ensures OpenOrderOf(db, u).None? ==> OpenOrderLookup(db, u) == Missing
    ensures OpenOrderOf(db, u).Some? ==> OpenOrderLookup(db, u) == Found(OpenOrderOf(db, u).value)
  {
  }

  /** An open cart never lists two lines for the same product. */
  lemma OpenCartHasDistinctProducts(db: Db, o: nat, i: nat, j: nat)
    requires Valid(db) && o < |db.orders| && !db.orders[o].ordered
    requires i < |db.orders[o].items| && j < |db.orders[o].items|
    requires db.orders[o].items[i] < |db.lineItems| && db.orders[o].items[j] < |db.lineItems|
    requires db.lineItems[db.orders[o].items[i]].product == db.lineItems[db.orders[o].items[j]].product
    ensures i == j
  {
    var ord := db.orders[o];
    assert OrderWellFormed(db, ord);
    assert ord.items[i] in ord.items && ord.items[j] in ord.items;
    assert ord.items[i] == ord.items[j];
  }
}
