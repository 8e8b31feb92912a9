/**
 * The cart manager of views.py (`add_to_cart`, `add_single_item_to_cart`,
 * `remove_from_cart`, `remove_single_item_from_cart`) as transitions of the
 * store, and what they promise: one line per product, quantities of at least
 * one, and totals that move by exactly one unit price.
 */
module Cart {
  import opened Wrappers
  import opened Models
  import opened Store

  /** The flash message (or failure) a cart view ends with. */
  datatype CartOutcome =
    | ProductNotFound   // get_object_or_404 on the slug
    | QuantityUpdated   // "This item quantity was updated"
    | ItemAdded         // "This item was added to your cart"
    | ItemRemoved       // "This item was removed from your cart"
    | NotInCart         // "This item is not in your cart"
    | NoActiveOrder     // "You do not have an active order"
    | ServerError       // `filter(...)[0]` on an empty queryset raises

  /** The four cart views: they share their logic and differ only in where they redirect. */
  datatype CartView = AddToCartView | AddSingleItemView | RemoveFromCartView | RemoveSingleItemView

  datatype Page = ProductPage(slug: Slug) | OrderSummaryPage

  /**
   * Where a cart view redirects after an outcome, `None` when it raises
   * instead. `add_to_cart` always returns to the product; the other three go
   * to the order summary once they have changed the cart.
   */
  function Landing(view: CartView, outcome: CartOutcome, slug: Slug): (r: Option<Page>)
    ensures r.None? <==> outcome == ProductNotFound || outcome == ServerError
    ensures r == Some(OrderSummaryPage) <==> view != AddToCartView && outcome in {QuantityUpdated, ItemAdded, ItemRemoved}
    ensures r.Some? && r != Some(OrderSummaryPage) ==> r == Some(ProductPage(slug))
  {
    match outcome
    case ProductNotFound => None
    case ServerError => None
    case NotInCart => Some(ProductPage(slug))
    case NoActiveOrder => Some(ProductPage(slug))
    case _ => if view == AddToCartView then Some(ProductPage(slug)) else Some(OrderSummaryPage)
  }

  /** Some line of the cart is for this product (`order.items.filter(item__slug=slug).exists()`). */
  predicate InCart(db: Db, o: nat, slug: Slug)
    requires o < |db.orders|
  {
    exists x :: x in db.orders[o].items && x < |db.lineItems| && db.lineItems[x].product == slug
  }

  /**
   * `get_or_create(item=..., user=..., ordered=False)`: the user's unordered
   * line for the product, inserted with quantity 1 only when there is none.
   */
  function GetOrCreateLine(db: Db, u: UserId, slug: Slug): (r: (Db, nat))
    ensures r.1 < |r.0.lineItems| && IsCartLineOf(r.0.lineItems[r.1], u, slug)
    ensures CartLineOf(db, u, slug).Some? ==> r == (db, CartLineOf(db, u, slug).value)
    ensures CartLineOf(db, u, slug).None? ==>
              r == (db.(lineItems := db.lineItems + [NewLineItem(u, slug)]), |db.lineItems|)
  {
    match CartLineOf(db, u, slug)
    case Some(i) => (db, i)
    case None => (db.(lineItems := db.lineItems + [NewLineItem(u, slug)]), |db.lineItems|)
  }

  /** `add_to_cart` and `add_single_item_to_cart`, which differ only in where they redirect. */
  function Add(db: Db, u: UserId, slug: Slug): (r: (Db, CartOutcome))
    ensures r.1 == ProductNotFound <==> slug !in db.products
    ensures r.1 == ProductNotFound ==> r.0 == db
    ensures r.1 in {ProductNotFound, QuantityUpdated, ItemAdded}
    ensures r.0.products == db.products && r.0.coupons == db.coupons && r.0.addresses == db.addresses
            && r.0.payments == db.payments && r.0.refunds == db.refunds
  {
    if slug !in db.products then (db, ProductNotFound)
    else
      var (db1, it) := GetOrCreateLine(db, u, slug);
      match OpenOrderOf(db1, u)
      case Some(o) =>
        if InCart(db1, o, slug) then
          (db1.(lineItems := db1.lineItems[it := db1.lineItems[it].(quantity := db1.lineItems[it].quantity + 1)]),
           QuantityUpdated)
        else
          (db1.(orders := db1.orders[o := db1.orders[o].(items := db1.orders[o].items + [it])]), ItemAdded)
      case None =>
        (db1.(orders := db1.orders + [NewOrder(u).(items := [it])]), ItemAdded)
  }

  /** Where the remove views find their line: the open cart and the user's unordered line for the product. */
  datatype Located = Located(order: nat, line: nat) | NotLocated(outcome: CartOutcome)

  function Locate(db: Db, u: UserId, slug: Slug): (r: Located)
    ensures r.Located? ==> r.order < |db.orders| && r.line < |db.lineItems|
    ensures r.Located? ==> OpenOrderOf(db, u) == Some(r.order) && CartLineOf(db, u, slug) == Some(r.line)
  {
    if slug !in db.products then NotLocated(ProductNotFound)
    else
      match OpenOrderOf(db, u)
      case None => NotLocated(NoActiveOrder)
      case Some(o) =>
        if !InCart(db, o, slug) then NotLocated(NotInCart)
        else
          match CartLineOf(db, u, slug)
          case None => NotLocated(ServerError)
          case Some(i) => Located(o, i)
  }

  /** The store with line `i` detached from order `o` (`order.items.remove(order_item)`); the line itself stays. */
  function Detach(db: Db, o: nat, i: nat): Db
    requires o < |db.orders|
  {
    db.(orders := db.orders[o := db.orders[o].(items := Without(db.orders[o].items, i))])
  }

  /** `remove_from_cart`: detach the line whatever its quantity. */
  function Remove(db: Db, u: UserId, slug: Slug): (r: (Db, CartOutcome))
    ensures r.1 in {ProductNotFound, NoActiveOrder, NotInCart, ServerError, ItemRemoved}
    ensures r.1 != ItemRemoved ==> r.0 == db
    ensures r.0.lineItems == db.lineItems && |r.0.orders| == |db.orders|
  {
    match Locate(db, u, slug)
    case NotLocated(outcome) => (db, outcome)
    case Located(o, i) => (Detach(db, o, i), ItemRemoved)
  }

  /** `remove_single_item_from_cart`: one unit less, or detach the last unit. */
  function RemoveSingle(db: Db, u: UserId, slug: Slug): (r: (Db, CartOutcome))
    ensures r.1 in {ProductNotFound, NoActiveOrder, NotInCart, ServerError, QuantityUpdated}
    ensures r.1 != QuantityUpdated ==> r.0 == db
    ensures |r.0.lineItems| == |db.lineItems| && |r.0.orders| == |db.orders|
  {
    match Locate(db, u, slug)
    case NotLocated(outcome) => (db, outcome)
    case Located(o, i) =>
      if db.lineItems[i].quantity > 1 then
        (db.(lineItems := db.lineItems[i := db.lineItems[i].(quantity := db.lineItems[i].quantity - 1)]), QuantityUpdated)
      else
        (Detach(db, o, i), QuantityUpdated)
  }

  // ---------------------------------------------------------------------------
  // The invariant is kept

  /** Changing only a quantity, to at least one, keeps the store valid. */
  lemma SetQuantityPreservesValid(db: Db, i: nat, q: int)
    requires Valid(db) && i < |db.lineItems| && q >= 1
    ensures Valid(db.(lineItems := db.lineItems[i := db.lineItems[i].(quantity := q)]))
  {
    var db' := db.(lineItems := db.lineItems[i := db.lineItems[i].(quantity := q)]);
    forall o | 0 <= o < |db'.orders|
      ensures OrderWellFormed(db', db'.orders[o])
    {
      assert OrderWellFormed(db, db.orders[o]);
    }
  }

  lemma GetOrCreatePreservesValid(db: Db, u: UserId, slug: Slug)
    requires Valid(db) && slug in db.products
    ensures Valid(GetOrCreateLine(db, u, slug).0)
  {
    if CartLineOf(db, u, slug).None? {
      var db' := GetOrCreateLine(db, u, slug).0;
      var n := |db.lineItems|;
      assert db'.lineItems == db.lineItems + [NewLineItem(u, slug)];
      forall i, j | 0 <= i < |db'.lineItems| && 0 <= j < |db'.lineItems| && !db'.lineItems[i].ordered && !db'.lineItems[j].ordered
        && db'.lineItems[i].user == db'.lineItems[j].user && db'.lineItems[i].product == db'.lineItems[j].product
        ensures i == j
      {
        if i == n && j < n {
          assert IsCartLineOf(db.lineItems[j], u, slug);
        } else if j == n && i < n {
          assert IsCartLineOf(db.lineItems[i], u, slug);
        }
      }
      forall o | 0 <= o < |db'.orders|
        ensures OrderWellFormed(db', db'.orders[o])
      {
        assert OrderWellFormed(db, db.orders[o]);
      }
    }
  }

  /** Attaching an unordered line of the cart's user, not yet listed, keeps the store valid. */
  lemma AttachPreservesValid(db: Db, o: nat, it: nat)
    requires Valid(db) && o < |db.orders| && !db.orders[o].ordered
    requires it < |db.lineItems| && IsCartLineOf(db.lineItems[it], db.orders[o].user, db.lineItems[it].product)
    requires it !in db.orders[o].items
    ensures Valid(db.(orders := db.orders[o := db.orders[o].(items := db.orders[o].items + [it])]))
  {
    var db' := db.(orders := db.orders[o := db.orders[o].(items := db.orders[o].items + [it])]);
    forall k | 0 <= k < |db'.orders|
      ensures OrderWellFormed(db', db'.orders[k])
    {
      assert OrderWellFormed(db, db.orders[k]);
      if k == o {
        var s := db.orders[o].items;
        assert forall a, b :: 0 <= a < b < |s + [it]| ==> (s + [it])[a] != (s + [it])[b] by {
          forall a, b | 0 <= a < b < |s + [it]|
            ensures (s + [it])[a] != (s + [it])[b]
          {
            if b == |s| {
              assert s[a] in s;
            }
          }
        }
      }
    }
  }

  lemma DetachPreservesValid(db: Db, o: nat, i: nat)
    requires Valid(db) && o < |db.orders|
    ensures Valid(Detach(db, o, i))
  {
    var db' := Detach(db, o, i);
    forall k | 0 <= k < |db'.orders|
      ensures OrderWellFormed(db', db'.orders[k])
    {
      assert OrderWellFormed(db, db.orders[k]);
      if k == o {
        WithoutKeepsNoDup(db.orders[o].items, i);
      }
    }
  }

  lemma NewCartPreservesValid(db: Db, u: UserId, it: nat)
    requires Valid(db) && OpenOrderOf(db, u).None?
    requires it < |db.lineItems| && IsCartLineOf(db.lineItems[it], u, db.lineItems[it].product)
    ensures Valid(db.(orders := db.orders + [NewOrder(u).(items := [it])]))
  {
    var db' := db.(orders := db.orders + [NewOrder(u).(items := [it])]);
    forall k | 0 <= k < |db'.orders|
      ensures OrderWellFormed(db', db'.orders[k])
    {
      if k < |db.orders| {
        assert OrderWellFormed(db, db.orders[k]);
      }
    }
    forall a, b | 0 <= a < |db'.orders| && 0 <= b < |db'.orders| && !db'.orders[a].ordered && !db'.orders[b].ordered
      && db'.orders[a].user == db'.orders[b].user
      ensures a == b
    {
    }
  }

  /** Every cart transition keeps the store valid. */
  lemma AddPreservesValid(db: Db, u: UserId, slug: Slug)
    requires Valid(db)
    ensures Valid(Add(db, u, slug).0)
  {
    if slug in db.products {
      GetOrCreatePreservesValid(db, u, slug);
      var (db1, it) := GetOrCreateLine(db, u, slug);
      match OpenOrderOf(db1, u)
      case Some(o) =>
        if InCart(db1, o, slug) {
          assert LinesWellFormed(db1);
          SetQuantityPreservesValid(db1, it, db1.lineItems[it].quantity + 1);
        } else {
          AttachPreservesValid(db1, o, it);
        }
      case None =>
        NewCartPreservesValid(db1, u, it);
    }
  }

  lemma RemovePreservesValid(db: Db, u: UserId, slug: Slug)
    requires Valid(db)
    ensures Valid(Remove(db, u, slug).0)
  {
    match Locate(db, u, slug)
    case NotLocated(_) =>
    case Located(o, i) => DetachPreservesValid(db, o, i);
  }

  lemma RemoveSinglePreservesValid(db: Db, u: UserId, slug: Slug)
    requires Valid(db)
    ensures Valid(RemoveSingle(db, u, slug).0)
  {
    match Locate(db, u, slug)
    case NotLocated(_) =>
    case Located(o, i) =>
      if db.lineItems[i].quantity > 1 {
        SetQuantityPreservesValid(db, i, db.lineItems[i].quantity - 1);
      } else {
        DetachPreservesValid(db, o, i);
      }
  }

  // ---------------------------------------------------------------------------
  // What the transitions do

  /** The line a product has in a valid open cart is the user's unordered line for it. */
  lemma CartLineIsListed(db: Db, u: UserId, slug: Slug, o: nat)
    requires Valid(db) && OpenOrderOf(db, u) == Some(o) && InCart(db, o, slug)
    ensures CartLineOf(db, u, slug).Some? && CartLineOf(db, u, slug).value in db.orders[o].items
  {
    var x :| x in db.orders[o].items && x < |db.lineItems| && db.lineItems[x].product == slug;
    assert OrderWellFormed(db, db.orders[o]);
    assert IsCartLineOf(db.lineItems[x], u, slug);
    var i := CartLineOf(db, u, slug).value;
    assert db.lineItems[i].product == db.lineItems[x].product;
  }

  /** Adding a product already in the cart adds one unit to its line and attaches nothing. */
  lemma AddIncrementsListedLine(db: Db, u: UserId, slug: Slug, o: nat)
    requires Valid(db) && slug in db.products && OpenOrderOf(db, u) == Some(o) && InCart(db, o, slug)
    ensures CartLineOf(db, u, slug).Some?
    ensures var i := CartLineOf(db, u, slug).value;
            && i in db.orders[o].items
            && Add(db, u, slug) == (db.(lineItems := db.lineItems[i := db.lineItems[i].(quantity := db.lineItems[i].quantity + 1)]),
                                    QuantityUpdated)
  {
    CartLineIsListed(db, u, slug, o);
  }

  /**
   * Adding a product not in the open cart attaches the user's unordered line
   * for it: a fresh one with quantity 1, or a previously detached one with the
   * quantity it had.
   */
  lemma AddAttachesLine(db: Db, u: UserId, slug: Slug, o: nat)
    requires Valid(db) && slug in db.products && OpenOrderOf(db, u) == Some(o) && !InCart(db, o, slug)
    ensures var (db', outcome) := Add(db, u, slug);
            && outcome == ItemAdded
            && |db'.orders| == |db.orders|
            && (forall k :: 0 <= k < |db.orders| && k != o ==> db'.orders[k] == db.orders[k])
            && (CartLineOf(db, u, slug).Some? ==>
                  var i := CartLineOf(db, u, slug).value;
                  db'.lineItems == db.lineItems && db'.orders[o].items == db.orders[o].items + [i])
            && (CartLineOf(db, u, slug).None? ==>
                  db'.lineItems == db.lineItems + [NewLineItem(u, slug)]
                  && db'.orders[o].items == db.orders[o].items + [|db.lineItems|])
  {
    var (db1, it) := GetOrCreateLine(db, u, slug);
    assert db1.orders == db.orders;
    assert OpenOrderOf(db1, u) == Some(o);
  }

  /** Adding to a user without a cart opens one, with every flag false, holding just that line. */
  lemma AddOpensCart(db: Db, u: UserId, slug: Slug)
    requires Valid(db) && slug in db.products && OpenOrderOf(db, u).None?
    ensures var (db', outcome) := Add(db, u, slug);
            var it := GetOrCreateLine(db, u, slug).1;
            && outcome == ItemAdded
            && db'.orders == db.orders + [NewOrder(u).(items := [it])]
            && OpenOrderOf(db', u) == Some(|db.orders|)
            && var cart := db'.orders[|db.orders|];
               !cart.ordered && !cart.beingDelivered && !cart.received && !cart.refundRequested && !cart.refundGranted
               && cart.payment.None? && cart.coupon.None? && cart.shipping.None? && cart.billing.None?
  {
    var (db1, it) := GetOrCreateLine(db, u, slug);
    assert db1.orders == db.orders;
    AddPreservesValid(db, u, slug);
    var db' := Add(db, u, slug).0;
    OpenOrderIsUnique(db', u, |db.orders|);
  }

  /** Removing a product in the cart detaches its line whatever the quantity; the line is kept, not deleted. */
  lemma RemoveDetachesLine(db: Db, u: UserId, slug: Slug, o: nat)
    requires Valid(db) && slug in db.products && OpenOrderOf(db, u) == Some(o) && InCart(db, o, slug)
    ensures CartLineOf(db, u, slug).Some?
    ensures var i := CartLineOf(db, u, slug).value;
            var (db', outcome) := Remove(db, u, slug);
            && outcome == ItemRemoved
            && i in db.orders[o].items && i !in db'.orders[o].items
            && db'.lineItems == db.lineItems
            && db' == Detach(db, o, i)
  {
    CartLineIsListed(db, u, slug, o);
  }

  /** Neither remove view changes anything without an open cart or when the product is not in it. */
  lemma RemoveChangesNothingOutsideCart(db: Db, u: UserId, slug: Slug)
    requires slug !in db.products || OpenOrderOf(db, u).None? || !InCart(db, OpenOrderOf(db, u).value, slug)
    ensures Remove(db, u, slug).0 == db && RemoveSingle(db, u, slug).0 == db
    ensures Remove(db, u, slug).1 == RemoveSingle(db, u, slug).1
    ensures slug in db.products && OpenOrderOf(db, u).None? ==> Remove(db, u, slug).1 == NoActiveOrder
    ensures slug in db.products && OpenOrderOf(db, u).Some? ==> Remove(db, u, slug).1 == NotInCart
  {
  }

  /**
   * Removing a single unit takes exactly one off a line holding more than one,
   * and otherwise detaches it; either way no attached line drops below one.
   */
  lemma RemoveSingleStep(db: Db, u: UserId, slug: Slug, o: nat)
    requires Valid(db) && slug in db.products && OpenOrderOf(db, u) == Some(o) && InCart(db, o, slug)
    ensures CartLineOf(db, u, slug).Some?
    ensures var i := CartLineOf(db, u, slug).value;
            var (db', outcome) := RemoveSingle(db, u, slug);
            && outcome == QuantityUpdated
            && (db.lineItems[i].quantity > 1 ==>
                  db'.orders == db.orders
                  && db'.lineItems == db.lineItems[i := db.lineItems[i].(quantity := db.lineItems[i].quantity - 1)])
            && (db.lineItems[i].quantity <= 1 ==> db' == Detach(db, o, i) && i !in db'.orders[o].items)
  {
    CartLineIsListed(db, u, slug, o);
  }

  // ---------------------------------------------------------------------------
  // Effect on the order total

  /** Adding one more of a product already in the cart raises the total by one unit price. */
  lemma AddRaisesTotalByUnitPrice(db: Db, u: UserId, slug: Slug, o: nat)
    requires Valid(db) && slug in db.products && OpenOrderOf(db, u) == Some(o) && InCart(db, o, slug)
    ensures Valid(Add(db, u, slug).0) && o < |Add(db, u, slug).0.orders|
    ensures OrderTotal(Add(db, u, slug).0, o) == OrderTotal(db, o) + UnitPrice(db.products[slug])
  {
    AddIncrementsListedLine(db, u, slug, o);
    AddPreservesValid(db, u, slug);
    var i := CartLineOf(db, u, slug).value;
    var db' := Add(db, u, slug).0;
    var item := db.lineItems[i].(quantity := db.lineItems[i].quantity + 1);
    ValidOrderPriced(db, o);
    assert OrderWellFormed(db, db.orders[o]);
    SubtotalUpdate(db.orders[o].items, db.lineItems, db.products, i, item);
    FinalPriceIsQuantityTimesUnitPrice(db.lineItems[i].quantity, db.products[slug]);
  }

  /** Removing a single unit of a product in the cart lowers the total by exactly one unit price. */
  lemma RemoveSingleLowersTotalByUnitPrice(db: Db, u: UserId, slug: Slug, o: nat)
    requires Valid(db) && slug in db.products && OpenOrderOf(db, u) == Some(o) && InCart(db, o, slug)
    ensures Valid(RemoveSingle(db, u, slug).0) && o < |RemoveSingle(db, u, slug).0.orders|
    ensures OrderTotal(RemoveSingle(db, u, slug).0, o) == OrderTotal(db, o) - UnitPrice(db.products[slug])
  {
    RemoveSingleStep(db, u, slug, o);
    RemoveSinglePreservesValid(db, u, slug);
    var i := CartLineOf(db, u, slug).value;
    var q := db.lineItems[i].quantity;
    ValidOrderPriced(db, o);
    assert OrderWellFormed(db, db.orders[o]);
    assert db.lineItems[i].product == slug;
    FinalPriceIsQuantityTimesUnitPrice(q - 1, db.products[slug]);
    if q > 1 {
      SubtotalUpdate(db.orders[o].items, db.lineItems, db.products, i, db.lineItems[i].(quantity := q - 1));
    } else {
      assert q == 1;
      SubtotalWithout(db.orders[o].items, db.lineItems, db.products, i);
    }
  }

  /** Removing a product in the cart lowers the total by its line's final price. */
  lemma RemoveLowersTotalByLinePrice(db: Db, u: UserId, slug: Slug, o: nat)
    requires Valid(db) && slug in db.products && OpenOrderOf(db, u) == Some(o) && InCart(db, o, slug)
    ensures CartLineOf(db, u, slug).Some?
    ensures Valid(Remove(db, u, slug).0) && o < |Remove(db, u, slug).0.orders|
    ensures OrderTotal(Remove(db, u, slug).0, o)
         == OrderTotal(db, o) - FinalPrice(db.lineItems[CartLineOf(db, u, slug).value].quantity, db.products[slug])
  {
    RemoveDetachesLine(db, u, slug, o);
    RemovePreservesValid(db, u, slug);
    var i := CartLineOf(db, u, slug).value;
    ValidOrderPriced(db, o);
    assert OrderWellFormed(db, db.orders[o]);
    SubtotalWithout(db.orders[o].items, db.lineItems, db.products, i);
  }

  /**
   * The detached line is not deleted: adding the product again re-attaches the
   * very same line with the quantity it had before the removal.
   */
  lemma RemoveThenAddRestoresQuantity(db: Db, u: UserId, slug: Slug, o: nat)
    requires Valid(db) && slug in db.products && OpenOrderOf(db, u) == Some(o) && InCart(db, o, slug)
    ensures CartLineOf(db, u, slug).Some?
    ensures var i := CartLineOf(db, u, slug).value;
            var db' := Add(Remove(db, u, slug).0, u, slug).0;
            && db'.lineItems == db.lineItems
            && db'.orders[o].items == Without(db.orders[o].items, i) + [i]
  {
    RemoveDetachesLine(db, u, slug, o);
    RemovePreservesValid(db, u, slug);
    var i := CartLineOf(db, u, slug).value;
    var mid := Remove(db, u, slug).0;
    assert mid.lineItems == db.lineItems;
    assert CartLineOf(mid, u, slug) == Some(i);
    OpenOrderIsUnique(mid, u, o);
    assert !InCart(mid, o, slug) by {
      if InCart(mid, o, slug) {
        CartLineIsListed(mid, u, slug, o);
      }
    }
    AddAttachesLine(mid, u, slug, o);
  }
}
