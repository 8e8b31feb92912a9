/**
 * The views of views.py as methods of one object holding the store's tables.
 * Each method changes the tables step by step as its view does, and its
 * contract ties the new tables (and its answer) to the transition function
 * of the store that specifies it.
 */
module Views {
  import opened Wrappers
  import opened Models
  import opened Store
  import opened RefCodes
  import Cart
  import Checkout
  import Payments
  import Refunds
  import Coupons

  /** A view's answer: the login redirect of `login_required`, or what the view itself ends with. */
  datatype Reply<T> = LoginRedirect | Done(result: T)

  class Shop {
    var products: map<Slug, Product>
    var coupons: seq<Coupon>
    var lineItems: seq<LineItem>
    var orders: seq<Order>
    var addresses: seq<Address>
    var payments: seq<Payment>
    var refunds: seq<Refund>

    /** The tables as one value. */
    function Snapshot(): Db
      reads this
    {
      Db(products, coupons, lineItems, orders, addresses, payments, refunds)
    }

    ghost predicate Valid()
      reads this
    {
      Store.Valid(Snapshot())
    }

    /** A store with a catalogue and coupons, and no carts, orders or addresses yet. */
    constructor (catalogue: map<Slug, Product>, couponTable: seq<Coupon>)
      ensures Snapshot() == Db(catalogue, couponTable, [], [], [], [], [])
      ensures Valid()
    {
      products, coupons := catalogue, couponTable;
      lineItems, orders, addresses, payments, refunds := [], [], [], [], [];
      EmptyStoreValid(catalogue, couponTable);
    }

    // -------------------------------------------------------------------------
    // The cart views

    /** The body `add_to_cart` and `add_single_item_to_cart` share. */
    method AddLine(u: UserId, slug: Slug) returns (outcome: Cart.CartOutcome)
      requires Valid()
      modifies this
      ensures Valid()
      ensures (Snapshot(), outcome) == Cart.Add(old(Snapshot()), u, slug)
    {
      Cart.AddPreservesValid(Snapshot(), u, slug);
      if slug !in products {
        return Cart.ProductNotFound;
      }
      // get_or_create(item=..., user=..., ordered=False)
      var it: nat;
      match CartLineOf(Snapshot(), u, slug) {
        case Some(i) =>
          it := i;
        case None =>
          it := |lineItems|;
          lineItems := lineItems + [NewLineItem(u, slug)];
      }
      match OpenOrderOf(Snapshot(), u) {
        case Some(o) =>
          if Cart.InCart(Snapshot(), o, slug) {
            lineItems := lineItems[it := lineItems[it].(quantity := lineItems[it].quantity + 1)];
            outcome := Cart.QuantityUpdated;
          } else {
            orders := orders[o := orders[o].(items := orders[o].items + [it])];
            outcome := Cart.ItemAdded;
          }
        case None =>
          orders := orders + [NewOrder(u).(items := [it])];
          outcome := Cart.ItemAdded;
      }
    }

    /** `add_to_cart`: back to the product page. */
    method AddToCart(who: Requester, slug: Slug) returns (reply: Reply<(Cart.CartOutcome, Option<Cart.Page>)>)
      requires Valid()
      modifies this
      ensures Valid()
      ensures who.Anonymous? ==> reply == LoginRedirect && Snapshot() == old(Snapshot())
      ensures who.Authenticated? ==>
                var (db, outcome) := Cart.Add(old(Snapshot()), who.id, slug);
                Snapshot() == db && reply == Done((outcome, Cart.Landing(Cart.AddToCartView, outcome, slug)))
    {
      if who.Anonymous? {
        return LoginRedirect;
      }
      var outcome := AddLine(who.id, slug);
      reply := Done((outcome, Cart.Landing(Cart.AddToCartView, outcome, slug)));
    }

    /** `add_single_item_to_cart`: the same change, then to the order summary. */
    method AddSingleItemToCart(who: Requester, slug: Slug) returns (reply: Reply<(Cart.CartOutcome, Option<Cart.Page>)>)
      requires Valid()
      modifies this
      ensures Valid()
      ensures who.Anonymous? ==> reply == LoginRedirect && Snapshot() == old(Snapshot())
      ensures who.Authenticated? ==>
                var (db, outcome) := Cart.Add(old(Snapshot()), who.id, slug);
                Snapshot() == db && reply == Done((outcome, Cart.Landing(Cart.AddSingleItemView, outcome, slug)))
    {
      if who.Anonymous? {
        return LoginRedirect;
      }
      var outcome := AddLine(who.id, slug);
      reply := Done((outcome, Cart.Landing(Cart.AddSingleItemView, outcome, slug)));
    }

    /** `remove_from_cart`. */
    method RemoveFromCart(who: Requester, slug: Slug) returns (reply: Reply<(Cart.CartOutcome, Option<Cart.Page>)>)
      requires Valid()
      modifies this
      ensures Valid()
      ensures who.Anonymous? ==> reply == LoginRedirect && Snapshot() == old(Snapshot())
      ensures who.Authenticated? ==>
                var (db, outcome) := Cart.Remove(old(Snapshot()), who.id, slug);
                Snapshot() == db && reply == Done((outcome, Cart.Landing(Cart.RemoveFromCartView, outcome, slug)))
    {
      if who.Anonymous? {
        return LoginRedirect;
      }
      var u := who.id;
      Cart.RemovePreservesValid(Snapshot(), u, slug);
      var outcome: Cart.CartOutcome;
      if slug !in products {
        outcome := Cart.ProductNotFound;
      } else {
        match OpenOrderOf(Snapshot(), u) {
          case None =>
            outcome := Cart.NoActiveOrder;
          case Some(o) =>
            if !Cart.InCart(Snapshot(), o, slug) {
              outcome := Cart.NotInCart;
            } else {
              match CartLineOf(Snapshot(), u, slug) {
                case None =>
                  outcome := Cart.ServerError;
                case Some(i) =>
                  orders := orders[o := orders[o].(items := Without(orders[o].items, i))];
                  outcome := Cart.ItemRemoved;
              }
            }
        }
      }
      reply := Done((outcome, Cart.Landing(Cart.RemoveFromCartView, outcome, slug)));
    }

    /** `remove_single_item_from_cart`. */
    method RemoveSingleItemFromCart(who: Requester, slug: Slug) returns (reply: Reply<(Cart.CartOutcome, Option<Cart.Page>)>)
      requires Valid()
      modifies this
      ensures Valid()
      ensures who.Anonymous? ==> reply == LoginRedirect && Snapshot() == old(Snapshot())
      ensures who.Authenticated? ==>
                var (db, outcome) := Cart.RemoveSingle(old(Snapshot()), who.id, slug);
                Snapshot() == db && reply == Done((outcome, Cart.Landing(Cart.RemoveSingleItemView, outcome, slug)))
    {
      if who.Anonymous? {
        return LoginRedirect;
      }
      var u := who.id;
      Cart.RemoveSinglePreservesValid(Snapshot(), u, slug);
      var outcome: Cart.CartOutcome;
      if slug !in products {
        outcome := Cart.ProductNotFound;
      } else {
        match OpenOrderOf(Snapshot(), u) {
          case None =>
            outcome := Cart.NoActiveOrder;
          case Some(o) =>
            if !Cart.InCart(Snapshot(), o, slug) {
              outcome := Cart.NotInCart;
            } else {
              match CartLineOf(Snapshot(), u, slug) {
                case None =>
                  outcome := Cart.ServerError;
                case Some(i) =>
                  if lineItems[i].quantity > 1 {
                    lineItems := lineItems[i := lineItems[i].(quantity := lineItems[i].quantity - 1)];
                  } else {
                    orders := orders[o := orders[o].(items := Without(orders[o].items, i))];
                  }
                  outcome := Cart.QuantityUpdated;
              }
            }
        }
      }
      reply := Done((outcome, Cart.Landing(Cart.RemoveSingleItemView, outcome, slug)));
    }

    // -------------------------------------------------------------------------
    // Checkout

    /** Lines 133-174 of `CheckOutView.post`: the shipping address, or the halt when no default exists. */
    method ShippingPart(u: UserId, o: nat, f: Checkout.CheckoutForm)
      returns (halted: bool, shipping: Checkout.ShippingValue, notices: seq<Checkout.Notice>)
      requires o < |orders|
      modifies this
      ensures var s := Checkout.ShippingStep(old(Snapshot()), u, o, f);
              && Snapshot() == s.db && halted == s.Halt? && notices == s.notices
              && (s.Continue? ==> shipping == s.shipping)
              && (s.Halt? ==> s.end == Checkout.NoDefaultShipping)
    {
      notices := [];
      halted := false;
      if f.useDefaultShipping {
        match DefaultAddressOf(Snapshot(), u, Shipping) {
          case Some(a) =>
            orders := orders[o := orders[o].(shipping := Some(a))];
            shipping := Checkout.SavedAddress(a);
          case None =>
            halted := true;
            shipping := Checkout.RawStreet("");
        }
      } else {
        var complete := Checkout.IsValidForm(Checkout.RequiredFields(f.shipping));
        if complete {
          var n := |addresses|;
          addresses := addresses + [Checkout.AddressFrom(u, f.shipping, Shipping, false)];
          orders := orders[o := orders[o].(shipping := Some(n))];
          if f.setDefaultShipping {
            addresses := addresses[n := addresses[n].(isDefault := true)];
          }
          shipping := Checkout.SavedAddress(n);
        } else {
          notices := [Checkout.IncompleteShipping];
          shipping := Checkout.RawStreet(f.shipping.street);
        }
      }
    }

    /** Lines 176-228 of `CheckOutView.post`: the billing address, or how the view halts. */
    method BillingPart(u: UserId, o: nat, f: Checkout.CheckoutForm, shipping: Checkout.ShippingValue)
      returns (halt: Option<Checkout.CheckoutEnd>, notices: seq<Checkout.Notice>)
      requires o < |orders| && (shipping.SavedAddress? ==> shipping.id < |addresses|)
      modifies this
      ensures var b := Checkout.BillingStep(old(Snapshot()), u, o, f, shipping);
              && Snapshot() == b.db && notices == b.notices
              && (halt.Some? <==> b.Halt?)
              && (b.Halt? ==> halt.value == b.end)
    {
      notices, halt := [], None;
      if f.sameBillingAddress {
        match shipping {
          case RawStreet(_) =>
            halt := Some(Checkout.ServerError);
          case SavedAddress(a) =>
            // billing_address.pk = None; save(); address_type = 'B'; save()
            var n := |addresses|;
            addresses := addresses + [addresses[a]];
            addresses := addresses[n := addresses[n].(kind := Billing)];
            orders := orders[o := orders[o].(billing := Some(n))];
        }
      } else if f.useDefaultBilling {
        match DefaultAddressOf(Snapshot(), u, Billing) {
          case Some(d) =>
            orders := orders[o := orders[o].(billing := Some(d))];
          case None =>
            halt := Some(Checkout.NoDefaultBilling);
        }
      } else {
        var complete := Checkout.IsValidForm(Checkout.RequiredFields(f.billing));
        if complete {
          var n := |addresses|;
          addresses := addresses + [Checkout.AddressFrom(u, f.billing, Billing, false)];
          orders := orders[o := orders[o].(billing := Some(n))];
          if f.setDefaultBilling {
            addresses := addresses[n := addresses[n].(isDefault := true)];
          }
        } else {
          notices := [Checkout.IncompleteBilling];
        }
      }
    }

    /** `CheckOutView.post`. */
    method CheckoutPost(who: Requester, f: Checkout.CheckoutForm, countries: set<string>) returns (reply: Reply<(Checkout.CheckoutEnd, seq<Checkout.Notice>)>)
      requires Valid()
      modifies this
      ensures Valid()
      ensures who.Anonymous? ==> reply == LoginRedirect && Snapshot() == old(Snapshot())
      ensures who.Authenticated? ==>
                var out := Checkout.Checkout(old(Snapshot()), who.id, f, countries);
                Snapshot() == out.db && reply == Done((out.end, out.notices))
    {
      if who.Anonymous? {
        return LoginRedirect;
      }
      var u := who.id;
      Checkout.CheckoutPreservesValid(Snapshot(), u, f, countries);
      match OpenOrderLookup(Snapshot(), u) {
        case Missing =>
          reply := Done((Checkout.NoActiveOrder, []));
        case Ambiguous =>
          reply := Done((Checkout.ServerError, []));
        case Found(o) =>
          if !Checkout.FormIsValid(f, countries) {
            return Done((Checkout.ServerError, []));
          }
          var halted, shipping, notices := ShippingPart(u, o, f);
          if halted {
            return Done((Checkout.NoDefaultShipping, notices));
          }
          var halt, more := BillingPart(u, o, f, shipping);
          match halt {
            case Some(end) =>
              reply := Done((end, notices + more));
            case None =>
              reply := Done((Checkout.Dispatch(f.paymentOption), notices + more));
          }
      }
    }

    // -------------------------------------------------------------------------
    // Payment

    /** `ShoppingCartOrder.get_total`: the loop over the cart's lines, then the coupon. */
    method GetTotal(o: nat) returns (total: int)
      requires Valid() && o < |orders|
      ensures total == OrderTotal(Snapshot(), o)
    {
      var items := orders[o].items;
      ValidOrderPriced(Snapshot(), o);
      total := 0;
      for k := 0 to |items|
        invariant Priced(items[..k], lineItems, products)
        invariant total == Subtotal(items[..k], lineItems, products)
      {
        assert items[..k + 1] == items[..k] + [items[k]];
        assert items[k] in items;
        assert forall x :: x in items[..k + 1] ==> x in items;
        SubtotalSnoc(items[..k], items[k], lineItems, products);
        var item := lineItems[items[k]];
        total := total + FinalPrice(item.quantity, products[item.product]);
      }
      assert items[..|items|] == items;
      if orders[o].coupon.Some? {
        assert OrderWellFormed(Snapshot(), orders[o]);
        total := total - 100 * coupons[orders[o].coupon.value].amount;
      }
    }

    /** `PaymentView.get`. */
    method PaymentGet(who: Requester) returns (page: Payments.PageEnd)
      ensures page == Payments.PaymentPage(Snapshot(), who)
    {
      if who.Anonymous? {
        return Payments.PageError;
      }
      match OpenOrderLookup(Snapshot(), who.id) {
        case Found(o) =>
          page := if orders[o].billing.Some? then Payments.ShowPaymentPage else Payments.NoBillingAddress;
        case Missing =>
          page := Payments.PageError;
        case Ambiguous =>
          page := Payments.PageError;
      }
    }

    /** `PaymentView.post`, given the gateway's answer and the reference code's random draws. */
    method PaymentPost(who: Requester, charge: Payments.Charge, picks: seq<nat>) returns (end: Payments.PayEnd, amount: Option<int>)
      requires Valid() && |picks| == RefCodeLength
      modifies this
      ensures Valid()
      ensures Payments.Outcome(Snapshot(), end, amount) == Payments.Pay(old(Snapshot()), who, charge, picks)
    {
      Payments.PayPreservesValid(Snapshot(), who, charge, picks);
      if who.Anonymous? {
        return Payments.ServerError, None;
      }
      var u := who.id;
      match OpenOrderLookup(Snapshot(), u) {
        case Missing =>
          return Payments.ServerError, None;
        case Ambiguous =>
          return Payments.ServerError, None;
        case Found(o) =>
          var total := GetTotal(o);
          amount := Some(total);
          if !charge.Charged? {
            return Payments.Reply(charge), amount;
          }
          ghost var db := Snapshot();
          assert OrderWellFormed(db, orders[o]);
          var p := |payments|;
          payments := payments + [Payment(charge.id, u, total)];
          // order.items.all().update(ordered=True)
          var items := orders[o].items;
          var lines, before := lineItems, lineItems;
          for k := 0 to |items|
            invariant forall x :: x in items[..k] ==> x in items
            invariant lines == Payments.MarkOrdered(before, items[..k])
          {
            assert items[..k + 1] == items[..k] + [items[k]];
            assert items[..k + 1][..k] == items[..k];
            assert items[k] in items;
            lines := lines[items[k] := lines[items[k]].(ordered := true)];
          }
          assert items[..|items|] == items;
          lineItems := lines;
          orders := orders[o := orders[o].(ordered := true, payment := Some(p), refCode := CreateRefCode(picks))];
          end := Payments.OrderPlaced;
      }
    }

    // -------------------------------------------------------------------------
    // Refunds and coupons

    /** `RequestRefundView.post`; whether the email passes the email validator is given. */
    method RequestRefund(f: Refunds.RefundForm, emailValid: bool) returns (end: Refunds.RefundEnd)
      requires Valid()
      modifies this
      ensures Valid()
      ensures (Snapshot(), end) == Refunds.RequestRefund(old(Snapshot()), f, emailValid)
    {
      Refunds.RefundPreservesValid(Snapshot(), f, emailValid);
      if !Refunds.RefundFormIsValid(f, emailValid) {
        return Refunds.ServerError;
      }
      match Refunds.RefundLookup(Snapshot(), f.refCode) {
        case Missing =>
          end := Refunds.OrderNotFound;
        case Ambiguous =>
          end := Refunds.ServerError;
        case Found(o) =>
          orders := orders[o := orders[o].(refundRequested := true)];
          refunds := refunds + [Refund(o, f.message, false, f.email)];
          end := Refunds.RequestReceived;
      }
    }

    /** `AddCouponView.post`. */
    method AddCoupon(who: Requester, code: string) returns (end: Coupons.CouponEnd)
      requires Valid()
      modifies this
      ensures Valid()
      ensures (Snapshot(), end) == Coupons.AddCoupon(old(Snapshot()), who, code)
    {
      Coupons.AddCouponPreservesValid(Snapshot(), who, code);
      if code == "" || who.Anonymous? {
        return Coupons.ServerError;
      }
      match OpenOrderLookup(Snapshot(), who.id) {
        case Missing =>
          end := Coupons.NoActiveOrder;
        case Ambiguous =>
          end := Coupons.ServerError;
        case Found(o) =>
          match Coupons.CouponLookup(Snapshot(), code) {
            case Found(c) =>
              orders := orders[o := orders[o].(coupon := Some(c))];
              end := Coupons.CouponAdded;
            case Missing =>
              end := Coupons.ServerError;
            case Ambiguous =>
              end := Coupons.ServerError;
          }
      }
    }
  }
}
