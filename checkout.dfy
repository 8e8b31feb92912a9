/**
 * `CheckOutView.post`: resolve the shipping address, then the billing
 * address, then dispatch on the payment option. Each step either goes on or
 * halts; what a step has saved before a halt stays saved.
 */
module Checkout {
  import opened Wrappers
  import opened Models
  import opened Store

  /** No value is the empty string. */
  predicate AllFilled(values: seq<string>)
  {
    forall i :: 0 <= i < |values| ==> values[i] != ""
  }

  /** `is_valid_form`: a flag cleared by every empty value; an empty list is valid. */
  method IsValidForm(values: seq<string>) returns (valid: bool)
    ensures valid <==> AllFilled(values)
  {
    valid := true;
    for i := 0 to |values|
      invariant valid <==> AllFilled(values[..i])
    {
      assert values[..i + 1] == values[..i] + [values[i]];
      if values[i] == "" {
        valid := false;
      }
    }
    assert values[..|values|] == values;
  }

  /** One address block of the checkout form, every field optional. */
  datatype AddressFields = AddressFields(street: string, apartment: string, country: string, zip: string)

  /** What checkout hands `is_valid_form`: street, country and zip, but not the apartment. */
  function RequiredFields(a: AddressFields): seq<string>
  {
    [a.street, a.country, a.zip]
  }

  datatype CheckoutForm = CheckoutForm(
    shipping: AddressFields,
    billing: AddressFields,
    sameBillingAddress: bool,
    setDefaultShipping: bool,
    useDefaultShipping: bool,
    setDefaultBilling: bool,
    useDefaultBilling: bool,
    paymentOption: string)

  /**
   * A country select with `required=False`: the empty choice, or one of the
   * country codes it offers. The list of codes belongs to django_countries
   * and is a parameter here.
   */
  predicate CountryChoiceValid(country: string, countries: set<string>)
  {
    country == "" || country in countries
  }

  /**
   * `form.is_valid()`: the text and check-box fields are optional, the two
   * country selects accept only a known code or nothing, and
   * `payment_option` is a required choice of 'S' or 'P'.
   */
  predicate FormIsValid(f: CheckoutForm, countries: set<string>): (valid: bool)
    ensures valid ==> Dispatch(f.paymentOption) in {ToStripe, ToPaypal}
  {
    && (f.paymentOption == "S" || f.paymentOption == "P")
    && CountryChoiceValid(f.shipping.country, countries)
    && CountryChoiceValid(f.billing.country, countries)
  }

  /** What the view's `shipping_address` variable holds after the shipping step: a saved row, or the raw street text of an incomplete form. */
  datatype ShippingValue = SavedAddress(id: nat) | RawStreet(text: string)

  /** How the view ends. */
  datatype CheckoutEnd =
    | NoActiveOrder         // "You do not have an active order"
    | NoDefaultShipping     // "No default shipping address available", then the redirect
    | NoDefaultBilling      // "No default billing address available", then the redirect
    | ToStripe              // redirect to the payment page, option stripe
    | ToPaypal              // redirect to the payment page, option paypal
    | InvalidPaymentOption  // "Invalid payment option selected"
    | ServerError           // an exception, or no response at all

  /** The notices queued by an incomplete address block; processing goes on after them. */
  datatype Notice = IncompleteShipping | IncompleteBilling

  datatype Step =
    | Continue(db: Db, shipping: ShippingValue, notices: seq<Notice>)
    | Halt(db: Db, end: CheckoutEnd, notices: seq<Notice>)

  datatype Outcome = Outcome(db: Db, end: CheckoutEnd, notices: seq<Notice>)

  /** The row the form fields describe; `default` is the flag `set_default_*` asks for. */
  function AddressFrom(u: UserId, a: AddressFields, kind: AddressKind, isDefault: bool): Address
  {
    Address(u, a.street, a.apartment, a.country, a.zip, kind, isDefault)
  }

  function SetShipping(db: Db, o: nat, a: nat): Db
    requires o < |db.orders|
  {
    db.(orders := db.orders[o := db.orders[o].(shipping := Some(a))])
  }

  function SetBilling(db: Db, o: nat, a: nat): Db
    requires o < |db.orders|
  {
    db.(orders := db.orders[o := db.orders[o].(billing := Some(a))])
  }

  /** Save `addr` as a new row and point the order's address of that kind at it. */
  function AttachNewAddress(db: Db, o: nat, addr: Address): Db
    requires o < |db.orders|
  {
    var db1 := db.(addresses := db.addresses + [addr]);
    if addr.kind == Shipping then SetShipping(db1, o, |db.addresses|) else SetBilling(db1, o, |db.addresses|)
  }

  /** Checkout touches only the address table and the orders' references: every other table is as it was. */
  predicate KeepsOtherTables(db: Db, r: Db)
  {
    && r.products == db.products && r.coupons == db.coupons && r.lineItems == db.lineItems
    && r.payments == db.payments && r.refunds == db.refunds && |r.orders| == |db.orders|
  }

  /** Lines 133-174: the default shipping address, a new one, or a notice. */
  function ShippingStep(db: Db, u: UserId, o: nat, f: CheckoutForm): (r: Step)
    requires o < |db.orders|
    ensures KeepsOtherTables(db, r.db)
    ensures r.Continue? && r.shipping.SavedAddress? ==> r.shipping.id < |r.db.addresses|
    ensures r.Halt? <==> f.useDefaultShipping && DefaultAddressOf(db, u, Shipping).None?
    ensures r.Halt? ==> r.db == db && r.end == NoDefaultShipping && r.notices == []
  {
    if f.useDefaultShipping then
      match DefaultAddressOf(db, u, Shipping)
      case Some(a) => Continue(SetShipping(db, o, a), SavedAddress(a), [])
      case None => Halt(db, NoDefaultShipping, [])
    else if AllFilled(RequiredFields(f.shipping)) then
      Continue(AttachNewAddress(db, o, AddressFrom(u, f.shipping, Shipping, f.setDefaultShipping)),
               SavedAddress(|db.addresses|), [])
    else
      Continue(db, RawStreet(f.shipping.street), [IncompleteShipping])
  }

  /**
   * Lines 176-228: a Billing copy of the shipping row, the default billing
   * address, a new one, or a notice. Copying needs a saved row: with the raw
   * street text, setting `pk` on a `str` raises.
   */
  function BillingStep(db: Db, u: UserId, o: nat, f: CheckoutForm, shipping: ShippingValue): (r: Step)
    requires o < |db.orders|
    requires shipping.SavedAddress? ==> shipping.id < |db.addresses|
    ensures KeepsOtherTables(db, r.db)
    ensures r.Continue? ==> r.shipping == shipping
    ensures r.Halt? ==> r.db == db && r.notices == [] && r.end in {ServerError, NoDefaultBilling}
    ensures r.Halt? && r.end == ServerError <==> f.sameBillingAddress && shipping.RawStreet?
  {
    if f.sameBillingAddress then
      match shipping
      case RawStreet(_) => Halt(db, ServerError, [])
      case SavedAddress(a) => Continue(AttachNewAddress(db, o, db.addresses[a].(kind := Billing)), shipping, [])
    else if f.useDefaultBilling then
      match DefaultAddressOf(db, u, Billing)
      case Some(b) => Continue(SetBilling(db, o, b), shipping, [])
      case None => Halt(db, NoDefaultBilling, [])
    else if AllFilled(RequiredFields(f.billing)) then
      Continue(AttachNewAddress(db, o, AddressFrom(u, f.billing, Billing, f.setDefaultBilling)), shipping, [])
    else
      Continue(db, shipping, [IncompleteBilling])
  }

  /** Lines 231-239: the payment option picks the payment page. */
  function Dispatch(option: string): (r: CheckoutEnd)
    ensures r == ToStripe <==> option == "S"
    ensures r == ToPaypal <==> option == "P"
    ensures r == InvalidPaymentOption <==> option != "S" && option != "P"
  {
    if option == "S" then ToStripe
    else if option == "P" then ToPaypal
    else InvalidPaymentOption
  }

  /**
   * The whole view for a logged-in user. The open cart is looked up first;
   * an invalid form makes the view fall off its end and return nothing.
   */
  function Checkout(db: Db, u: UserId, f: CheckoutForm, countries: set<string>): (r: Outcome)
    ensures KeepsOtherTables(db, r.db)
    ensures r.end != InvalidPaymentOption
    ensures r.end in {NoActiveOrder, NoDefaultShipping} ==> r.db == db && r.notices == []
    ensures r.end in {ToStripe, ToPaypal} ==> FormIsValid(f, countries) && r.end == Dispatch(f.paymentOption)
  {
    match OpenOrderLookup(db, u)
    case Missing => Outcome(db, NoActiveOrder, [])
    case Ambiguous => Outcome(db, ServerError, [])
    case Found(o) =>
      if !FormIsValid(f, countries) then Outcome(db, ServerError, [])
      else
        match ShippingStep(db, u, o, f)
        case Halt(db1, end, notices) => Outcome(db1, end, notices)
        case Continue(db1, shipping, notices) =>
          match BillingStep(db1, u, o, f, shipping)
          case Halt(db2, end, more) => Outcome(db2, end, notices + more)
          case Continue(db2, _, more) => Outcome(db2, Dispatch(f.paymentOption), notices + more)
  }

  // ---------------------------------------------------------------------------
  // What checkout changes

  /**
   * `r` differs from `db` only in new address rows and in the shipping and
   * billing references of order `o`; existing rows are never rewritten, so
   * setting a new default never clears an old one.
   */
  ghost predicate CheckoutFrame(db: Db, r: Db, o: nat)
    requires o < |db.orders|
  {
    && r.products == db.products && r.coupons == db.coupons && r.lineItems == db.lineItems
    && r.payments == db.payments && r.refunds == db.refunds
    && |r.orders| == |db.orders|
    && |db.addresses| <= |r.addresses|
    && r.addresses[..|db.addresses|] == db.addresses
    && (forall k :: 0 <= k < |db.orders| && k != o ==> r.orders[k] == db.orders[k])
    && r.orders[o] == db.orders[o].(shipping := r.orders[o].shipping, billing := r.orders[o].billing)
  }

  lemma FrameTransitive(db: Db, mid: Db, r: Db, o: nat)
    requires o < |db.orders| && CheckoutFrame(db, mid, o) && CheckoutFrame(mid, r, o)
    ensures CheckoutFrame(db, r, o)
  {
    assert r.addresses[..|db.addresses|] == r.addresses[..|mid.addresses|][..|db.addresses|];
  }

  /** A frame whose order references point at existing rows keeps the store valid. */
  lemma FrameKeepsValid(db: Db, r: Db, o: nat)
    requires Valid(db) && o < |db.orders| && CheckoutFrame(db, r, o)
    requires r.orders[o].shipping.Some? ==> r.orders[o].shipping.value < |r.addresses|
    requires r.orders[o].billing.Some? ==> r.orders[o].billing.value < |r.addresses|
    ensures Valid(r)
  {
    forall k | 0 <= k < |r.orders|
      ensures OrderWellFormed(r, r.orders[k])
    {
      assert OrderWellFormed(db, db.orders[k]);
    }
  }

  /** Appending an address that is not a default of `kind` for `u` leaves that default where it was. */
  lemma DefaultAddressSnoc(db: Db, addr: Address, u: UserId, kind: AddressKind)
    requires !IsDefaultAddressOf(addr, u, kind)
    ensures DefaultAddressOf(db.(addresses := db.addresses + [addr]), u, kind) == DefaultAddressOf(db, u, kind)
  {
    var db' := db.(addresses := db.addresses + [addr]);
    var n := |db.addresses|;
    assert forall j :: 0 <= j < n ==> db'.addresses[j] == db.addresses[j];
    match DefaultAddressOf(db, u, kind)
    case None =>
    case Some(i) =>
      assert IsDefaultAddressOf(db'.addresses[i], u, kind);
  }

  /** The shipping step saves at most one row, of kind Shipping, and leaves the billing reference alone. */
  lemma ShippingStepFrame(db: Db, u: UserId, o: nat, f: CheckoutForm)
    requires o < |db.orders|
    ensures var s := ShippingStep(db, u, o, f);
            && CheckoutFrame(db, s.db, o)
            && |s.db.addresses| <= |db.addresses| + 1
            && (forall k :: |db.addresses| <= k < |s.db.addresses| ==> s.db.addresses[k].kind == Shipping)
            && s.db.orders[o].billing == db.orders[o].billing
            && (s.db.orders[o].shipping.Some? && s.db.orders[o].shipping != db.orders[o].shipping ==>
                  s.db.orders[o].shipping.value < |s.db.addresses|)
            && DefaultAddressOf(s.db, u, Billing) == DefaultAddressOf(db, u, Billing)
  {
    var s := ShippingStep(db, u, o, f);
    assert (db.addresses + [AddressFrom(u, f.shipping, Shipping, f.setDefaultShipping)])[..|db.addresses|] == db.addresses;
    if !f.useDefaultShipping && AllFilled(RequiredFields(f.shipping)) {
      DefaultAddressSnoc(db, AddressFrom(u, f.shipping, Shipping, f.setDefaultShipping), u, Billing);
    }
  }

  /** The billing step saves at most one row, of kind Billing, and leaves the shipping reference alone. */
  lemma BillingStepFrame(db: Db, u: UserId, o: nat, f: CheckoutForm, shipping: ShippingValue)
    requires o < |db.orders|
    requires shipping.SavedAddress? ==> shipping.id < |db.addresses|
    ensures var b := BillingStep(db, u, o, f, shipping);
            && CheckoutFrame(db, b.db, o)
            && |b.db.addresses| <= |db.addresses| + 1
            && (forall k :: |db.addresses| <= k < |b.db.addresses| ==> b.db.addresses[k].kind == Billing)
            && b.db.orders[o].shipping == db.orders[o].shipping
            && (b.db.orders[o].billing.Some? && b.db.orders[o].billing != db.orders[o].billing ==>
                  b.db.orders[o].billing.value < |b.db.addresses|)
  {
    var b := BillingStep(db, u, o, f, shipping);
    if |b.db.addresses| != |db.addresses| {
      assert b.db.addresses == db.addresses + [b.db.addresses[|db.addresses|]];
      assert b.db.addresses[..|db.addresses|] == db.addresses;
    }
  }

  /**
   * Checkout changes nothing without an open cart, and otherwise only adds
   * at most two address rows and repoints the cart's shipping and billing.
   */
  lemma CheckoutTouchesOnlyAddressesAndCart(db: Db, u: UserId, f: CheckoutForm, countries: set<string>)
    requires Valid(db)
    ensures OpenOrderOf(db, u).None? ==> Checkout(db, u, f, countries) == Outcome(db, NoActiveOrder, [])
    ensures OpenOrderOf(db, u).Some? ==>
              var r := Checkout(db, u, f, countries).db;
              && CheckoutFrame(db, r, OpenOrderOf(db, u).value)
              && |r.addresses| <= |db.addresses| + 2
  {
    OpenOrderLookupAgrees(db, u);
    if OpenOrderOf(db, u).Some? && FormIsValid(f, countries) {
      var o := OpenOrderOf(db, u).value;
      var s := ShippingStep(db, u, o, f);
      ShippingStepFrame(db, u, o, f);
      if s.Continue? {
        BillingStepFrame(s.db, u, o, f, s.shipping);
        FrameTransitive(db, s.db, BillingStep(s.db, u, o, f, s.shipping).db, o);
      }
    }
  }

  /** Checkout keeps the store valid. */
  lemma CheckoutPreservesValid(db: Db, u: UserId, f: CheckoutForm, countries: set<string>)
    requires Valid(db)
    ensures Valid(Checkout(db, u, f, countries).db)
  {
    OpenOrderLookupAgrees(db, u);
    if OpenOrderOf(db, u).Some? && FormIsValid(f, countries) {
      var o := OpenOrderOf(db, u).value;
      assert OrderWellFormed(db, db.orders[o]);
      var s := ShippingStep(db, u, o, f);
      ShippingStepFrame(db, u, o, f);
      FrameKeepsValid(db, s.db, o);
      if s.Continue? {
        var b := BillingStep(s.db, u, o, f, s.shipping);
        BillingStepFrame(s.db, u, o, f, s.shipping);
        assert OrderWellFormed(s.db, s.db.orders[o]);
        FrameKeepsValid(s.db, b.db, o);
      }
    }
  }

  /** The shipping row the shipping step settles on, when it settles on one. */
  function ShippingTarget(db: Db, u: UserId, f: CheckoutForm): Option<Address>
  {
    if f.useDefaultShipping then
      match DefaultAddressOf(db, u, Shipping)
      case Some(a) => Some(db.addresses[a])
      case None => None
    else if AllFilled(RequiredFields(f.shipping)) then Some(AddressFrom(u, f.shipping, Shipping, f.setDefaultShipping))
    else None
  }

  /**
   * A new shipping row is saved exactly when the user did not ask for the
   * default and filled street, country and zip; it is the form's address,
   * `default` only if asked for, and the cart ships to it.
   */
  lemma ShippingCreatedIffComplete(db: Db, u: UserId, f: CheckoutForm, o: nat, countries: set<string>)
    requires Valid(db) && OpenOrderOf(db, u) == Some(o)
    ensures var r := Checkout(db, u, f, countries).db;
            (exists k :: |db.addresses| <= k < |r.addresses| && r.addresses[k].kind == Shipping)
              <==> FormIsValid(f, countries) && !f.useDefaultShipping && AllFilled(RequiredFields(f.shipping))
    ensures var r := Checkout(db, u, f, countries).db;
            FormIsValid(f, countries) && !f.useDefaultShipping && AllFilled(RequiredFields(f.shipping)) ==>
              && |r.addresses| > |db.addresses|
              && r.addresses[|db.addresses|] == AddressFrom(u, f.shipping, Shipping, f.setDefaultShipping)
              && r.orders[o].shipping == Some(|db.addresses|)
  {
    OpenOrderLookupAgrees(db, u);
    var r := Checkout(db, u, f, countries).db;
    var n := |db.addresses|;
    if FormIsValid(f, countries) {
      var s := ShippingStep(db, u, o, f);
      ShippingStepFrame(db, u, o, f);
      if s.Continue? {
        BillingStepFrame(s.db, u, o, f, s.shipping);
        var b := BillingStep(s.db, u, o, f, s.shipping);
        assert r == b.db;
        if !f.useDefaultShipping && AllFilled(RequiredFields(f.shipping)) {
          assert r.addresses[n] == r.addresses[..|s.db.addresses|][n];
        } else {
          assert |s.db.addresses| == n;
        }
      }
    }
  }

  /**
   * "Same billing address" saves a separate copy of the shipping row, typed
   * Billing and keeping its `default` flag: the cart's shipping and billing
   * addresses are two rows with the same fields.
   */
  lemma SameBillingSavesCopy(db: Db, u: UserId, f: CheckoutForm, o: nat, countries: set<string>)
    requires Valid(db) && OpenOrderOf(db, u) == Some(o)
    requires FormIsValid(f, countries) && f.sameBillingAddress && ShippingTarget(db, u, f).Some?
    ensures var out := Checkout(db, u, f, countries);
            && out.end == Dispatch(f.paymentOption)
            && out.db.orders[o].shipping.Some? && out.db.orders[o].billing.Some?
            && var s := out.db.orders[o].shipping.value;
               var b := out.db.orders[o].billing.value;
               && s < |out.db.addresses| && b < |out.db.addresses| && s != b
               && out.db.addresses[s] == ShippingTarget(db, u, f).value
               && out.db.addresses[b] == out.db.addresses[s].(kind := Billing)
  {
    OpenOrderLookupAgrees(db, u);
    var st := ShippingStep(db, u, o, f);
    var a := st.shipping.id;
    assert st.db.addresses[a] == ShippingTarget(db, u, f).value;
    var out := Checkout(db, u, f, countries).db;
    assert out.addresses == st.db.addresses + [st.db.addresses[a].(kind := Billing)];
  }

  /** With "same billing address" but an incomplete shipping block the view raises. */
  lemma SameBillingWithoutShippingRaises(db: Db, u: UserId, f: CheckoutForm, o: nat, countries: set<string>)
    requires Valid(db) && OpenOrderOf(db, u) == Some(o)
    requires FormIsValid(f, countries) && f.sameBillingAddress && !f.useDefaultShipping && !AllFilled(RequiredFields(f.shipping))
    ensures Checkout(db, u, f, countries) == Outcome(db, ServerError, [IncompleteShipping])
  {
    OpenOrderLookupAgrees(db, u);
  }

  /**
   * An incomplete shipping block queues a notice and leaves the cart's
   * shipping address alone, and the view goes on to billing and dispatch.
   */
  lemma IncompleteShippingContinues(db: Db, u: UserId, f: CheckoutForm, o: nat, countries: set<string>)
    requires Valid(db) && OpenOrderOf(db, u) == Some(o)
    requires FormIsValid(f, countries) && !f.useDefaultShipping && !AllFilled(RequiredFields(f.shipping))
    ensures var out := Checkout(db, u, f, countries);
            && out.db.orders[o].shipping == db.orders[o].shipping
            && |out.notices| >= 1 && out.notices[0] == IncompleteShipping
            && (!f.sameBillingAddress && !(f.useDefaultBilling && DefaultAddressOf(db, u, Billing).None?) ==>
                  out.end == Dispatch(f.paymentOption))
  {
    OpenOrderLookupAgrees(db, u);
    BillingStepFrame(db, u, o, f, RawStreet(f.shipping.street));
  }

  /** Asking for a default address that does not exist halts; for shipping, before anything is saved. */
  lemma MissingDefaultHalts(db: Db, u: UserId, f: CheckoutForm, o: nat, countries: set<string>)
    requires Valid(db) && OpenOrderOf(db, u) == Some(o) && FormIsValid(f, countries)
    ensures f.useDefaultShipping && DefaultAddressOf(db, u, Shipping).None? ==>
              Checkout(db, u, f, countries) == Outcome(db, NoDefaultShipping, [])
    ensures !f.sameBillingAddress && f.useDefaultBilling && DefaultAddressOf(db, u, Billing).None?
            && !(f.useDefaultShipping && DefaultAddressOf(db, u, Shipping).None?) ==>
              Checkout(db, u, f, countries).end == NoDefaultBilling
  {
    OpenOrderLookupAgrees(db, u);
    ShippingStepFrame(db, u, o, f);
  }

  /**
   * The form admits only 'S' and 'P', so the "Invalid payment option
   * selected" branch is never reached: any other option makes the view return
   * nothing, having changed nothing.
   */
  lemma InvalidOptionNeverDispatched(db: Db, u: UserId, f: CheckoutForm, countries: set<string>)
    ensures Checkout(db, u, f, countries).end != InvalidPaymentOption
    ensures !FormIsValid(f, countries) ==> Checkout(db, u, f, countries).db == db
    ensures Checkout(db, u, f, countries).end in {ToStripe, ToPaypal} ==> FormIsValid(f, countries) && Checkout(db, u, f, countries).end == Dispatch(f.paymentOption)
  {
  }
  /**
   * Whether the billing step saves a row from the billing fields: the
   * shipping step went on, the user neither copied the shipping address nor
   * asked for the default, and filled street, country and zip.
   */
  predicate BillingFromForm(db: Db, u: UserId, f: CheckoutForm, countries: set<string>)
  {
    && FormIsValid(f, countries)
    && !(f.useDefaultShipping && DefaultAddressOf(db, u, Shipping).None?)
    && !f.sameBillingAddress && !f.useDefaultBilling
    && AllFilled(RequiredFields(f.billing))
  }

  /**
   * Unless the shipping address is copied, a billing row is saved exactly when
   * the billing fields are used and complete.
   */
  lemma BillingCreatedIffComplete(db: Db, u: UserId, f: CheckoutForm, o: nat, countries: set<string>)
    requires Valid(db) && OpenOrderOf(db, u) == Some(o)
    ensures var r := Checkout(db, u, f, countries).db;
            !f.sameBillingAddress ==>
              ((exists k :: |db.addresses| <= k < |r.addresses| && r.addresses[k].kind == Billing)
                 <==> BillingFromForm(db, u, f, countries))
  {
    OpenOrderLookupAgrees(db, u);
    var r := Checkout(db, u, f, countries).db;
    if FormIsValid(f, countries) {
      var s := ShippingStep(db, u, o, f);
      ShippingStepFrame(db, u, o, f);
      if s.Continue? {
        BillingStepFrame(s.db, u, o, f, s.shipping);
        var b := BillingStep(s.db, u, o, f, s.shipping);
        assert r == b.db;
        if BillingFromForm(db, u, f, countries) {
          BillingRowFromForm(db, u, f, o, countries);
          assert r.addresses[|r.addresses| - 1].kind == Billing;
        } else if !f.sameBillingAddress {
          assert |r.addresses| == |s.db.addresses|;
        }
      }
    }
  }

  /**
   * The billing row saved from the form is the form's address, `default`
   * only if asked for; the cart bills to it, and the view goes on to
   * dispatch.
   */
  lemma BillingRowFromForm(db: Db, u: UserId, f: CheckoutForm, o: nat, countries: set<string>)
    requires Valid(db) && OpenOrderOf(db, u) == Some(o) && BillingFromForm(db, u, f, countries)
    ensures var out := Checkout(db, u, f, countries);
            && |out.db.addresses| > |db.addresses|
            && out.db.addresses[|out.db.addresses| - 1] == AddressFrom(u, f.billing, Billing, f.setDefaultBilling)
            && out.db.orders[o].billing == Some(|out.db.addresses| - 1)
            && out.end == Dispatch(f.paymentOption)
  {
    OpenOrderLookupAgrees(db, u);
    var s := ShippingStep(db, u, o, f);
    ShippingStepFrame(db, u, o, f);
    assert s.Continue?;
    BillingStepFrame(s.db, u, o, f, s.shipping);
    assert Checkout(db, u, f, countries).db == BillingStep(s.db, u, o, f, s.shipping).db;
  }

  /** A country that is not one of the offered codes fails the form: the view returns nothing and saves nothing. */
  lemma UnknownCountryRefused(db: Db, u: UserId, f: CheckoutForm, countries: set<string>)
    requires (f.shipping.country != "" && f.shipping.country !in countries)
          || (f.billing.country != "" && f.billing.country !in countries)
    ensures Checkout(db, u, f, countries).db == db
    ensures Checkout(db, u, f, countries).end in {NoActiveOrder, ServerError}
  {
  }
}
