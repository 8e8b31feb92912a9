/**
 * `RequestRefundView.post`: anyone holding an order's reference code can flag
 * it for a refund; the request is kept as a Refund row.
 */
module Refunds {
  import opened Models
  import opened Store
  import opened RefCodes

  /** The three fields of RefundForm, all required. */
  datatype RefundForm = RefundForm(refCode: string, message: string, email: string)

  /** `form.is_valid()`; whether the email passes the email validator is given, as that validator is not modelled. */
  predicate RefundFormIsValid(f: RefundForm, emailValid: bool)
  {
    f.refCode != "" && f.message != "" && f.email != "" && emailValid
  }

  datatype RefundEnd =
    | RequestReceived  // "Your request was recieved"
    | OrderNotFound    // "This order does not exist"
    | ServerError      // an invalid form (the view returns nothing) or two orders with the code

  /** `ShoppingCartOrder.objects.get(ref_code=...)`. */
  function RefundLookup(db: Db, code: string): Lookup
  {
    Get(db.orders, (o: Order) => o.refCode == code)
  }

  function RequestRefund(db: Db, f: RefundForm, emailValid: bool): (r: (Db, RefundEnd))
    ensures r.1 == RequestReceived <==> RefundFormIsValid(f, emailValid) && RefundLookup(db, f.refCode).Found?
    ensures r.1 == OrderNotFound <==> RefundFormIsValid(f, emailValid) && RefundLookup(db, f.refCode).Missing?
    ensures r.1 != RequestReceived ==> r.0 == db
  {
    if !RefundFormIsValid(f, emailValid) then (db, ServerError)
    else
      match RefundLookup(db, f.refCode)
      case Missing => (db, OrderNotFound)
      case Ambiguous => (db, ServerError)
      case Found(o) =>
        (db.(orders := db.orders[o := db.orders[o].(refundRequested := true)],
             refunds := db.refunds + [Refund(o, f.message, false, f.email)]),
         RequestReceived)
  }

  /**
   * A known code flags exactly that order and records exactly one Refund for
   * it, not yet accepted; as open carts have no code, the order is a paid one.
   */
  lemma RefundRequestRecorded(db: Db, f: RefundForm, emailValid: bool, o: nat)
    requires Valid(db) && RefundFormIsValid(f, emailValid) && RefundLookup(db, f.refCode) == Found(o)
    ensures var (db', end) := RequestRefund(db, f, emailValid);
            && end == RequestReceived
            && db.orders[o].ordered
            && db'.orders == db.orders[o := db.orders[o].(refundRequested := true)]
            && db'.refunds == db.refunds + [Refund(o, f.message, false, f.email)]
            && db'.products == db.products && db'.lineItems == db.lineItems && db'.addresses == db.addresses
            && db'.payments == db.payments && db'.coupons == db.coupons
  {
    assert OrderWellFormed(db, db.orders[o]);
  }

  /** The store changes exactly when the form is valid and one order carries the code; an unknown code changes nothing. */
  lemma RefundChangesOnlyKnownOrder(db: Db, f: RefundForm, emailValid: bool)
    ensures RequestRefund(db, f, emailValid).0 != db <==> RefundFormIsValid(f, emailValid) && RefundLookup(db, f.refCode).Found?
    ensures RefundFormIsValid(f, emailValid) && RefundLookup(db, f.refCode).Missing? ==>
              RequestRefund(db, f, emailValid) == (db, OrderNotFound)
  {
    if RefundFormIsValid(f, emailValid) && RefundLookup(db, f.refCode).Found? {
      assert |RequestRefund(db, f, emailValid).0.refunds| == |db.refunds| + 1;
    }
  }

  lemma RefundPreservesValid(db: Db, f: RefundForm, emailValid: bool)
    requires Valid(db)
    ensures Valid(RequestRefund(db, f, emailValid).0)
  {
    var db' := RequestRefund(db, f, emailValid).0;
    forall k | 0 <= k < |db'.orders|
      ensures OrderWellFormed(db', db'.orders[k])
    {
      assert OrderWellFormed(db, db.orders[k]);
    }
  }
}
