/**
 * `PaymentView`: the payment page, and the charge that seals the cart into a
 * paid order. The gateway is an oracle: its answer is a parameter.
 */
module Payments {
  import opened Wrappers
  import opened Models
  import opened Store
  import opened RefCodes

  /** What `stripe.Charge.create` does: return a charge, or raise one of the errors the view catches. */
  datatype Charge =
    | Charged(id: string)
    | CardDeclined(message: string)  // stripe.error.CardError, carrying the gateway's message
    | RateLimited                    // stripe.error.RateLimitError
    | InvalidRequest                 // stripe.error.InvalidRequestError
    | AuthenticationFailed           // stripe.error.AuthenticationError
    | ConnectionFailed               // stripe.error.APIConnectionError
    | OtherStripeError               // any other stripe.error.StripeError
    | Unexpected                     // any other exception

  // ---------------------------------------------------------------------------
  // PaymentView.get

  datatype PageEnd = ShowPaymentPage | NoBillingAddress | PageError

  /** The page needs the cart's billing address; the cart lookup is not guarded, so no cart (or no user) raises. */
  function PaymentPage(db: Db, who: Requester): (r: PageEnd)
    ensures r != PageError ==> who.Authenticated? && OpenOrderLookup(db, who.id).Found?
  {
    match who
    case Anonymous => PageError
    case Authenticated(u) =>
      match OpenOrderLookup(db, u)
      case Found(o) => if db.orders[o].billing.Some? then ShowPaymentPage else NoBillingAddress
      case Missing => PageError
      case Ambiguous => PageError
  }

  /** The payment page is shown exactly to a user whose open cart has a billing address. */
  lemma PaymentPageNeedsBilling(db: Db, who: Requester)
    requires Valid(db)
    ensures PaymentPage(db, who) == ShowPaymentPage <==>
              who.Authenticated? && OpenOrderOf(db, who.id).Some? && db.orders[OpenOrderOf(db, who.id).value].billing.Some?
    ensures PaymentPage(db, who) == NoBillingAddress <==>
              who.Authenticated? && OpenOrderOf(db, who.id).Some? && db.orders[OpenOrderOf(db, who.id).value].billing.None?
  {
    if who.Authenticated? {
      OpenOrderLookupAgrees(db, who.id);
    }
  }

  // ---------------------------------------------------------------------------
  // PaymentView.post

  datatype PayEnd = OrderPlaced | ChargeFailed(warning: string) | ServerError

  /** The warning each failed charge is answered with; a declined card shows the gateway's own message. */
  function Warning(c: Charge): string
    requires !c.Charged?
  {
    match c
    case CardDeclined(message) => message
    case RateLimited => "Rate limit error"
    case InvalidRequest => "Invalid Parameters"
    case AuthenticationFailed => "Not Authenticated"
    case ConnectionFailed => "Network Error"
    case OtherStripeError => "Something went wrong, you were not charge. Please try again"
    case Unexpected => "Serious error has occured, we have been notifed of this issue"
  }

  /**
   * The response of the `try` as written: the card-error clause queues its
   * warning but has no `return`, so the view returns nothing and the request
   * fails.
   */
  function ReplyAsWritten(c: Charge): (r: PayEnd)
    ensures r == ServerError <==> c.CardDeclined?
  {
    if c.Charged? then OrderPlaced
    else if c.CardDeclined? then ServerError
    else ChargeFailed(Warning(c))
  }

  /** Every failed charge redirects home with its warning; only a successful one places the order. */
  function Reply(c: Charge): (r: PayEnd)
    ensures r != ServerError
    ensures r == OrderPlaced <==> c.Charged?
    ensures r.ChargeFailed? ==> !c.Charged? && r.warning == Warning(c)
  {
    if c.Charged? then OrderPlaced else ChargeFailed(Warning(c))
  }

  /** A declined card gets no response as written, and its decline message once corrected. */
  lemma CardDeclineGetsNoResponse(message: string)
    ensures ReplyAsWritten(CardDeclined(message)) == ServerError
    ensures Reply(CardDeclined(message)) == ChargeFailed(message)
  {
  }

  /** Apart from the declined card, the view as written already answers as corrected. */
  lemma RepliesAgreeOtherwise(c: Charge)
    requires !c.CardDeclined?
    ensures ReplyAsWritten(c) == Reply(c)
  {
  }

  /** `order.items.all().update(ordered=True)`: the listed lines, and only they, are marked paid. */
  function MarkOrdered(lines: seq<LineItem>, ids: seq<nat>): (r: seq<LineItem>)
    requires forall x :: x in ids ==> x < |lines|
    ensures |r| == |lines|
    ensures forall i :: 0 <= i < |lines| ==> r[i] == if i in ids then lines[i].(ordered := true) else lines[i]
  {
    if ids == [] then lines
    else
      var pre, last := ids[..|ids| - 1], ids[|ids| - 1];
      assert ids == pre + [last] && last in ids;
      assert forall x :: x in pre ==> x in ids;
      var r := MarkOrdered(lines, pre);
      r[last := r[last].(ordered := true)]
  }

  /** Lines 273-289: the Payment row for the total, the paid lines, and the sealed order with its reference code. */
  function Finalise(db: Db, u: UserId, o: nat, chargeId: string, refCode: string): Db
    requires Valid(db) && o < |db.orders|
  {
    var ord := db.orders[o];
    assert OrderWellFormed(db, ord);
    db.(payments := db.payments + [Payment(chargeId, u, OrderTotal(db, o))],
        lineItems := MarkOrdered(db.lineItems, ord.items),
        orders := db.orders[o := ord.(ordered := true, payment := Some(|db.payments|), refCode := refCode)])
  }

  /** The store after the view, how it ended, and the amount in cents it asked the gateway for. */
  datatype Outcome = Outcome(db: Db, end: PayEnd, amount: Option<int>)

  /**
   * The view, with the gateway's answer and the reference code's random
   * draws as parameters. `int(order.get_total() * 100)` is the total in cents.
   */
  function Pay(db: Db, who: Requester, charge: Charge, picks: seq<nat>): (r: Outcome)
    requires Valid(db) && |picks| == RefCodeLength
    ensures r.end == OrderPlaced <==> charge.Charged? && who.Authenticated? && OpenOrderLookup(db, who.id).Found?
    ensures r.end != OrderPlaced ==> r.db == db
    ensures r.end == ServerError <==> r.amount.None?
  {
    match who
    case Anonymous => Outcome(db, ServerError, None)
    case Authenticated(u) =>
      match OpenOrderLookup(db, u)
      case Found(o) =>
        if charge.Charged? then
          Outcome(Finalise(db, u, o, charge.id, CreateRefCode(picks)), OrderPlaced, Some(OrderTotal(db, o)))
        else
          Outcome(db, Reply(charge), Some(OrderTotal(db, o)))
      case Missing => Outcome(db, ServerError, None)
      case Ambiguous => Outcome(db, ServerError, None)
  }

  /**
   * A successful charge records one Payment for the order total, marks the
   * cart and every line in it paid, stamps a reference code, and leaves the
   * user without an open cart; nothing else changes.
   */
  lemma ChargeFinalisesOrder(db: Db, u: UserId, id: string, picks: seq<nat>, o: nat)
    requires Valid(db) && |picks| == RefCodeLength && OpenOrderOf(db, u) == Some(o)
    ensures var out := Pay(db, Authenticated(u), Charged(id), picks);
            && out.end == OrderPlaced
            && out.amount == Some(OrderTotal(db, o))
            && out.db.payments == db.payments + [Payment(id, u, OrderTotal(db, o))]
            && out.db.orders[o].ordered && out.db.orders[o].payment == Some(|db.payments|)
            && IsRefCode(out.db.orders[o].refCode)
            && out.db.orders[o].items == db.orders[o].items
            && (forall x :: x in db.orders[o].items ==> x < |out.db.lineItems| && out.db.lineItems[x].ordered)
            && |out.db.lineItems| == |db.lineItems|
            && (forall i :: 0 <= i < |db.lineItems| && i !in db.orders[o].items ==> out.db.lineItems[i] == db.lineItems[i])
            && (forall k :: 0 <= k < |db.orders| && k != o ==> out.db.orders[k] == db.orders[k])
            && out.db.addresses == db.addresses && out.db.refunds == db.refunds && out.db.coupons == db.coupons
            && OpenOrderOf(out.db, u).None?
  {
    OpenOrderLookupAgrees(db, u);
    var out := Pay(db, Authenticated(u), Charged(id), picks);
    assert OrderWellFormed(db, db.orders[o]);
    forall k | 0 <= k < |out.db.orders|
      ensures !IsOpenOrderOf(out.db.orders[k], u)
    {
    }
  }

  /** A charge that fails leaves no Payment, and the cart and its lines unpaid: the store is as it was. */
  lemma FailedChargeChangesNothing(db: Db, who: Requester, charge: Charge, picks: seq<nat>)
    requires Valid(db) && |picks| == RefCodeLength && !charge.Charged?
    ensures Pay(db, who, charge, picks).db == db
    ensures Pay(db, who, charge, picks).end != OrderPlaced
  {
  }

  /** A Payment is recorded exactly when a logged-in user with an open cart is charged successfully. */
  lemma PaymentOnlyAfterCharge(db: Db, who: Requester, charge: Charge, picks: seq<nat>)
    requires Valid(db) && |picks| == RefCodeLength
    ensures |Pay(db, who, charge, picks).db.payments| > |db.payments| <==>
              charge.Charged? && who.Authenticated? && OpenOrderOf(db, who.id).Some?
  {
    if who.Authenticated? {
      OpenOrderLookupAgrees(db, who.id);
    }
  }

  /** Paying keeps the store valid; the lines of other users' carts stay unpaid. */
  lemma PayPreservesValid(db: Db, who: Requester, charge: Charge, picks: seq<nat>)
    requires Valid(db) && |picks| == RefCodeLength
    ensures Valid(Pay(db, who, charge, picks).db)
  {
    if who.Authenticated? && charge.Charged? && OpenOrderOf(db, who.id).Some? {
      var u := who.id;
      var o := OpenOrderOf(db, u).value;
      OpenOrderLookupAgrees(db, u);
      var r := Pay(db, who, charge, picks).db;
      var ord := db.orders[o];
      assert OrderWellFormed(db, ord);
      forall k | 0 <= k < |r.orders|
        ensures OrderWellFormed(r, r.orders[k])
      {
        assert OrderWellFormed(db, db.orders[k]);
        if k != o && !db.orders[k].ordered {
          forall x | x in db.orders[k].items
            ensures x !in ord.items
          {
          }
        }
      }
    }
  }
  /**
   * The view as written. `int(order.get_total() * 100)` runs before the
   * `try`, so a cart mixing discounted and undiscounted lines raises before
   * any charge; and a declined card gets no response (`ReplyAsWritten`).
   */
  function PayAsWritten(db: Db, who: Requester, charge: Charge, picks: seq<nat>): Outcome
    requires Valid(db) && |picks| == RefCodeLength
  {
    match who
    case Anonymous => Outcome(db, ServerError, None)
    case Authenticated(u) =>
      match OpenOrderLookup(db, u)
      case Found(o) =>
        ValidOrderPriced(db, o);
        if SubtotalAsWritten(db.orders[o].items, db.lineItems, db.products).None? then
          Outcome(db, ServerError, None)
        else if charge.Charged? then
          Outcome(Finalise(db, u, o, charge.id, CreateRefCode(picks)), OrderPlaced, Some(OrderTotal(db, o)))
        else
          Outcome(db, ReplyAsWritten(charge), Some(OrderTotal(db, o)))
      case Missing => Outcome(db, ServerError, None)
      case Ambiguous => Outcome(db, ServerError, None)
  }

  /**
   * The view as written and `Pay` differ exactly for a logged-in user with an
   * open cart whose card is declined or whose cart mixes price types; there
   * the view as written fails with nothing saved.
   */
  lemma PayAsWrittenDiffersOnlyThere(db: Db, who: Requester, charge: Charge, picks: seq<nat>)
    requires Valid(db) && |picks| == RefCodeLength
    ensures var w, p := PayAsWritten(db, who, charge, picks), Pay(db, who, charge, picks);
            w != p <==>
              && who.Authenticated? && OpenOrderOf(db, who.id).Some?
              && var items := db.orders[OpenOrderOf(db, who.id).value].items;
                 && Priced(items, db.lineItems, db.products)
                 && (charge.CardDeclined? || MixesPriceTypes(items, db.lineItems, db.products))
    ensures var w := PayAsWritten(db, who, charge, picks);
            w != Pay(db, who, charge, picks) ==> w.db == db && w.end == ServerError
  {
    if who.Authenticated? {
      OpenOrderLookupAgrees(db, who.id);
      if OpenOrderOf(db, who.id).Some? {
        var o := OpenOrderOf(db, who.id).value;
        ValidOrderPriced(db, o);
        SubtotalAsWrittenRaisesIffMixed(db.orders[o].items, db.lineItems, db.products);
      }
    }
  }
}
