/**
 * `get_coupon` and `AddCouponView.post`: attach the coupon with the given
 * code to the user's open cart. There is no usage or expiry check.
 */
module Coupons {
  import opened Wrappers
  import opened Models
  import opened Store

  datatype CouponEnd =
    | CouponAdded    // "Sucessfully added coupon!"
    | NoActiveOrder  // "You do not have an active order"
    | ServerError    // an invalid form, an unknown or ambiguous code, or no user

  /** `Coupon.objects.get(code=...)`. */
  function CouponLookup(db: Db, code: string): Lookup
  {
    Get(db.coupons, (c: Coupon) => c.code == code)
  }

  /**
   * The view. An empty code fails the form and the view returns nothing; for
   * an unknown code `get_coupon` returns a redirect, which cannot be stored
   * in the coupon column, so the assignment raises before anything is saved.
   */
  function AddCoupon(db: Db, who: Requester, code: string): (r: (Db, CouponEnd))
    ensures r.1 == CouponAdded <==>
              code != "" && who.Authenticated? && OpenOrderLookup(db, who.id).Found? && CouponLookup(db, code).Found?
    ensures r.1 != CouponAdded ==> r.0 == db
  {
    if code == "" then (db, ServerError)
    else
      match who
      case Anonymous => (db, ServerError)
      case Authenticated(u) =>
        match OpenOrderLookup(db, u)
        case Missing => (db, NoActiveOrder)
        case Ambiguous => (db, ServerError)
        case Found(o) =>
          match CouponLookup(db, code)
          case Found(c) => (db.(orders := db.orders[o := db.orders[o].(coupon := Some(c))]), CouponAdded)
          case Missing => (db, ServerError)
          case Ambiguous => (db, ServerError)
  }

  /**
   * A known code is attached to the open cart, replacing any earlier coupon,
   * and the total is then the subtotal less that coupon, once.
   */
  lemma CouponAttached(db: Db, u: UserId, code: string, o: nat, c: nat)
    requires Valid(db) && code != "" && OpenOrderOf(db, u) == Some(o) && CouponLookup(db, code) == Found(c)
    ensures var (db', end) := AddCoupon(db, Authenticated(u), code);
            && end == CouponAdded
            && db' == db.(orders := db.orders[o := db.orders[o].(coupon := Some(c))])
            && Valid(db')
            && Priced(db.orders[o].items, db.lineItems, db.products)
            && OrderTotal(db', o) == Subtotal(db.orders[o].items, db.lineItems, db.products) - 100 * db.coupons[c].amount
  {
    OpenOrderLookupAgrees(db, u);
    AddCouponPreservesValid(db, Authenticated(u), code);
    var db' := AddCoupon(db, Authenticated(u), code).0;
    OrderTotalParts(db', o);
  }

  /** Coupons do not stack: after a second code only the second one counts. */
  lemma SecondCouponReplacesFirst(db: Db, u: UserId, first: string, second: string, o: nat, c: nat)
    requires Valid(db) && first != "" && second != "" && OpenOrderOf(db, u) == Some(o)
    requires CouponLookup(db, first).Found? && CouponLookup(db, second) == Found(c)
    ensures var db' := AddCoupon(AddCoupon(db, Authenticated(u), first).0, Authenticated(u), second).0;
            && Valid(db') && Priced(db.orders[o].items, db.lineItems, db.products)
            && OrderTotal(db', o) == Subtotal(db.orders[o].items, db.lineItems, db.products) - 100 * db.coupons[c].amount
  {
    var mid := AddCoupon(db, Authenticated(u), first).0;
    CouponAttached(db, u, first, o, CouponLookup(db, first).index);
    assert mid.coupons == db.coupons && mid.orders[o].items == db.orders[o].items;
    assert OpenOrderOf(mid, u) == Some(o) by {
      OpenOrderIsUnique(mid, u, o);
    }
    CouponAttached(mid, u, second, o, c);
  }

  /** Nothing changes unless a logged-in user with an open cart names a known code. */
  lemma CouponChangesOnlyWhenFound(db: Db, who: Requester, code: string)
    requires Valid(db)
    ensures AddCoupon(db, who, code).0 != db ==>
              && code != "" && who.Authenticated? && OpenOrderOf(db, who.id).Some?
              && CouponLookup(db, code).Found?
    ensures who.Authenticated? && code != "" && OpenOrderOf(db, who.id).None? ==>
              AddCoupon(db, who, code) == (db, NoActiveOrder)
  {
    if who.Authenticated? {
      OpenOrderLookupAgrees(db, who.id);
    }
  }

  lemma AddCouponPreservesValid(db: Db, who: Requester, code: string)
    requires Valid(db)
    ensures Valid(AddCoupon(db, who, code).0)
  {
    var db' := AddCoupon(db, who, code).0;
    forall k | 0 <= k < |db'.orders|
      ensures OrderWellFormed(db', db'.orders[k])
    {
      assert OrderWellFormed(db, db.orders[k]);
    }
  }

  /** A cart holding one 40.00 print, with the coupon SAVE10 worth 10 attached, totals 30.00. */
  lemma CouponScenario()
    ensures var db := Db(map["print" := Product("Print", 4000, None)], [Coupon("SAVE10", 10)],
                         [LineItem(1, false, "print", 1)], [NewOrder(1).(items := [0])], [], [], []);
            && Valid(db)
            && var db' := AddCoupon(db, Authenticated(1), "SAVE10").0;
               Valid(db') && OrderTotal(db, 0) == 4000 && OrderTotal(db', 0) == 3000
  {
    var db := Db(map["print" := Product("Print", 4000, None)], [Coupon("SAVE10", 10)],
                 [LineItem(1, false, "print", 1)], [NewOrder(1).(items := [0])], [], [], []);
    assert OrderWellFormed(db, db.orders[0]);
    assert Valid(db);
    assert [0][..0] == [];
    OrderTotalParts(db, 0);
    assert OpenOrderOf(db, 1) == Some(0);
    CouponAttached(db, 1, "SAVE10", 0, 0);
  }
}
