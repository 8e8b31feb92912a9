/**
 * The store's entities and the arithmetic of models.py: line-item prices,
 * the order subtotal and the coupon, the address-type choices and the review
 * validators. Money is counted in integer cents.
 */
module Models {
  import opened Wrappers

  type UserId = nat
  type Slug = string

  /** A catalogue entry; `discountPrice` is a nullable column, `None` when unset. */
  datatype Product = Product(name: string, price: int, discountPrice: Option<int>)

  /** A row of ShoppingCartOrderItem: one product, its quantity, and whether it was paid for. */
  datatype LineItem = LineItem(user: UserId, ordered: bool, product: Slug, quantity: int)

  /** The row `get_or_create` inserts: the column defaults `ordered=False`, `quantity=1`. */
  function NewLineItem(user: UserId, product: Slug): LineItem
  {
    LineItem(user, false, product, 1)
  }

  // ---------------------------------------------------------------------------
  // Addresses

  /** The two ADDRESS_CHOICES. */
  datatype AddressKind = Billing | Shipping

  /** The one-character code stored in `address_type`. */
  function KindCode(k: AddressKind): char
  {
    match k
    case Billing => 'B'
    case Shipping => 'S'
  }

  /** Reading an `address_type` column: only the two choice codes name a kind. */
  function KindFromCode(c: char): (r: Option<AddressKind>)
    ensures r.Some? <==> c == 'B' || c == 'S'
    ensures r.Some? ==> KindCode(r.value) == c
  {
    if c == 'B' then Some(Billing)
    else if c == 'S' then Some(Shipping)
    else None
  }

  lemma KindCodeRoundTrip(k: AddressKind)
    ensures KindFromCode(KindCode(k)) == Some(k)
  {
  }

  datatype Address = Address(
    user: UserId,
    street: string,
    apartment: string,
    country: string,
    zip: string,
    kind: AddressKind,
    isDefault: bool)

  // ---------------------------------------------------------------------------
  // Payments, coupons, orders, refunds

  /** A captured charge; `amount` is the order total in cents. */
  datatype Payment = Payment(chargeId: string, user: UserId, amount: int)

  /** A flat coupon; `amount` is an IntegerField of whole currency units. */
  datatype Coupon = Coupon(code: string, amount: int)

  /**
   * A ShoppingCartOrder. `items` holds line-item ids (the many-to-many
   * relation), `shipping`, `billing`, `payment` and `coupon` are nullable
   * foreign keys (ids into their tables).
   */
  datatype Order = Order(
    user: UserId,
    refCode: string,
    items: seq<nat>,
    ordered: bool,
    shipping: Option<nat>,
    billing: Option<nat>,
    payment: Option<nat>,
    coupon: Option<nat>,
    beingDelivered: bool,
    received: bool,
    refundRequested: bool,
    refundGranted: bool)

  /** The row `objects.create(user=...)` inserts: every flag at its default `False`, no references. */
  function NewOrder(user: UserId): Order
  {
    Order(user, "", [], false, None, None, None, None, false, false, false, false)
  }

  datatype Refund = Refund(order: nat, reason: string, accepted: bool, email: string)

  // ---------------------------------------------------------------------------
  // Collections of ids (the many-to-many relation)

  predicate NoDup(s: seq<nat>)
  {
    forall i, j :: 0 <= i < j < |s| ==> s[i] != s[j]
  }

  /** `items.remove(x)`: the relation without `x`. */
  function Without(s: seq<nat>, x: nat): (r: seq<nat>)
    ensures forall y :: y in r <==> y in s && y != x
  {
    if s == [] then []
    else if s[|s| - 1] == x then Without(s[..|s| - 1], x)
    else Without(s[..|s| - 1], x) + [s[|s| - 1]]
  }

  // ---------------------------------------------------------------------------
  // Prices

  /** `if self.item.discount_price:` is false both for a null and for a zero discount. */
  predicate HasDiscount(p: Product)
  {
    p.discountPrice.Some? && p.discountPrice.value != 0
  }

  /** The price of one unit as the order total counts it. */
  function UnitPrice(p: Product): (r: int)
    ensures r == p.price || (HasDiscount(p) && r == p.discountPrice.value)
    ensures p.discountPrice == Some(0) ==> r == p.price
  {
    if HasDiscount(p) then p.discountPrice.value else p.price
  }

  /** `get_total_order_price`: the list price for every unit. */
  function TotalOrderPrice(quantity: int, p: Product): (r: int)
    ensures quantity == 1 ==> r == p.price
    ensures quantity >= 0 && p.price >= 0 ==> r >= 0
  {
    quantity * p.price
  }

  /** `get_total_discount_item_price`: the discount price for every unit. */
  function TotalDiscountItemPrice(quantity: int, p: Product): (r: int)
    requires p.discountPrice.Some?
    ensures quantity == 1 ==> r == p.discountPrice.value
    ensures quantity >= 0 && p.discountPrice.value >= 0 ==> r >= 0
  {
    quantity * p.discountPrice.value
  }

  /** `get_final_price`: the discounted total when the discount is set and non-zero, the full total otherwise. */
  function FinalPrice(quantity: int, p: Product): (r: int)
    ensures r == quantity * UnitPrice(p)
  {
    if HasDiscount(p) then TotalDiscountItemPrice(quantity, p) else TotalOrderPrice(quantity, p)
  }

  /** The final price of a line is linear in its quantity, at the discounted unit price when there is one. */
  lemma FinalPriceIsQuantityTimesUnitPrice(quantity: int, p: Product)
    ensures FinalPrice(quantity, p) == quantity * UnitPrice(p)
    ensures FinalPrice(quantity + 1, p) == FinalPrice(quantity, p) + UnitPrice(p)
    ensures !HasDiscount(p) ==> FinalPrice(quantity, p) == TotalOrderPrice(quantity, p)
  {
  }

  /** Every id names a line item whose product is in the catalogue. */
  predicate Priced(ids: seq<nat>, lines: seq<LineItem>, products: map<Slug, Product>)
  {
    forall x :: x in ids ==> x < |lines| && lines[x].product in products
  }

  function LinePrice(item: LineItem, products: map<Slug, Product>): int
    requires item.product in products
  {
    FinalPrice(item.quantity, products[item.product])
  }

  /** No listed line has a negative quantity or a negative unit price. */
  predicate NonNegativeLines(ids: seq<nat>, lines: seq<LineItem>, products: map<Slug, Product>)
    requires Priced(ids, lines, products)
  {
    forall x :: x in ids ==> lines[x].quantity >= 0 && UnitPrice(products[lines[x].product]) >= 0
  }

  /** The running sum of `get_total`, item by item. */
  function Subtotal(ids: seq<nat>, lines: seq<LineItem>, products: map<Slug, Product>): int
    requires Priced(ids, lines, products)
  {
    if ids == [] then 0
    else
      assert ids[|ids| - 1] in ids;
      Subtotal(ids[..|ids| - 1], lines, products) + LinePrice(lines[ids[|ids| - 1]], products)
  }

  /** Before the coupon, an order of non-negative quantities at non-negative prices never totals below zero. */
  lemma {:induction false} SubtotalNonNegative(ids: seq<nat>, lines: seq<LineItem>, products: map<Slug, Product>)
    requires Priced(ids, lines, products) && NonNegativeLines(ids, lines, products)
    ensures Subtotal(ids, lines, products) >= 0
  {
    if ids != [] {
      var pre, last := ids[..|ids| - 1], ids[|ids| - 1];
      assert forall y :: y in pre ==> y in ids;
      assert last in ids;
      SubtotalNonNegative(pre, lines, products);
      FinalPriceIsQuantityTimesUnitPrice(lines[last].quantity, products[lines[last].product]);
    }
  }

  /** `total -= self.coupon.amount`: whole currency units, so a hundred cents per unit, once. */
  function ApplyCoupon(subtotal: int, coupon: Option<Coupon>): int
  {
    match coupon
    case None => subtotal
    case Some(c) => subtotal - 100 * c.amount
  }

  lemma SubtotalSnoc(ids: seq<nat>, x: nat, lines: seq<LineItem>, products: map<Slug, Product>)
    requires Priced(ids + [x], lines, products)
    ensures Priced(ids, lines, products) && x < |lines| && lines[x].product in products
    ensures Subtotal(ids + [x], lines, products) == Subtotal(ids, lines, products) + LinePrice(lines[x], products)
  {
    assert x in ids + [x];
    assert forall y :: y in ids ==> y in ids + [x];
    assert (ids + [x])[..|ids|] == ids;
  }

  /** Only the quantity and product of the listed lines matter to the subtotal. */
  lemma {:induction false} SubtotalAgree(ids: seq<nat>, lines: seq<LineItem>, lines': seq<LineItem>, products: map<Slug, Product>)
    requires Priced(ids, lines, products)
    requires forall x :: x in ids ==> x < |lines'| && lines'[x].quantity == lines[x].quantity && lines'[x].product == lines[x].product
    ensures Priced(ids, lines', products)
    ensures Subtotal(ids, lines', products) == Subtotal(ids, lines, products)
  {
    if ids != [] {
      var pre := ids[..|ids| - 1];
      assert forall x :: x in pre ==> x in ids;
      SubtotalAgree(pre, lines, lines', products);
    }
  }

  /** Changing one listed line changes the subtotal by exactly the difference of its prices. */
  lemma {:induction false} SubtotalUpdate(ids: seq<nat>, lines: seq<LineItem>, products: map<Slug, Product>, x: nat, item: LineItem)
    requires Priced(ids, lines, products) && NoDup(ids) && x in ids
    requires item.product == lines[x].product
    ensures Priced(ids, lines[x := item], products)
    ensures Subtotal(ids, lines[x := item], products)
         == Subtotal(ids, lines, products) - LinePrice(lines[x], products) + LinePrice(item, products)
  {
    var pre, last := ids[..|ids| - 1], ids[|ids| - 1];
    assert ids == pre + [last];
    assert forall y :: y in pre ==> y in ids;
    assert NoDup(pre);
    if last == x {
      assert x !in pre;
      SubtotalAgree(pre, lines, lines[x := item], products);
    } else {
      SubtotalUpdate(pre, lines, products, x, item);
    }
  }

  /** Removing a listed line takes exactly its price off the subtotal. */
  lemma {:induction false} SubtotalWithout(ids: seq<nat>, lines: seq<LineItem>, products: map<Slug, Product>, x: nat)
    requires Priced(ids, lines, products) && NoDup(ids) && x in ids
    ensures Priced(Without(ids, x), lines, products)
    ensures Subtotal(Without(ids, x), lines, products) == Subtotal(ids, lines, products) - LinePrice(lines[x], products)
  {
    var pre, last := ids[..|ids| - 1], ids[|ids| - 1];
    assert ids == pre + [last];
    assert forall y :: y in pre ==> y in ids;
    assert NoDup(pre);
    if last == x {
      assert x !in pre;
      WithoutAbsent(pre, x);
    } else {
      SubtotalWithout(pre, lines, products, x);
      SubtotalSnoc(Without(pre, x), last, lines, products);
    }
  }

  /** Removing an id keeps a relation free of duplicates. */
  lemma {:induction false} WithoutKeepsNoDup(s: seq<nat>, x: nat)
    requires NoDup(s)
    ensures NoDup(Without(s, x))
  {
    if s != [] {
      var pre, last := s[..|s| - 1], s[|s| - 1];
      assert s == pre + [last];
      assert NoDup(pre);
      WithoutKeepsNoDup(pre, x);
      assert last !in pre;
      assert last !in Without(pre, x);
    }
  }

  /** Removing an id that is not there leaves the relation as it was. */
  lemma {:induction false} WithoutAbsent(s: seq<nat>, x: nat)
    requires x !in s
    ensures Without(s, x) == s
  {
    if s != [] {
      assert s == s[..|s| - 1] + [s[|s| - 1]];
      WithoutAbsent(s[..|s| - 1], x);
    }
  }

  // ---------------------------------------------------------------------------
  // `get_total` as written: Python number types of the running total

  /**
   * The Python type of a value in `get_total`: the accumulator starts as the
   * int 0, a DecimalField price times a quantity is a Decimal, a FloatField
   * discount price times a quantity is a float.
   */
  datatype PyNumber = PyInt | PyDecimal | PyFloat

  function LineType(p: Product): PyNumber
  {
    if HasDiscount(p) then PyFloat else PyDecimal
  }

  /** The type of `acc + x`, or `None` for the TypeError Decimal and float raise when added. */
  function SumType(acc: PyNumber, x: PyNumber): Option<PyNumber>
  {
    if acc == PyInt || acc == x then Some(x) else None
  }

  /** The loop of `get_total` as written: `None` when an addition raises. */
  function SubtotalAsWritten(ids: seq<nat>, lines: seq<LineItem>, products: map<Slug, Product>): Option<(PyNumber, int)>
    requires Priced(ids, lines, products)
  {
    if ids == [] then Some((PyInt, 0))
    else
      assert ids[|ids| - 1] in ids;
      var last := lines[ids[|ids| - 1]];
      match SubtotalAsWritten(ids[..|ids| - 1], lines, products)
      case None => None
      case Some(acc) =>
        match SumType(acc.0, LineType(products[last.product]))
        case None => None
        case Some(t) => Some((t, acc.1 + LinePrice(last, products)))
  }

  /** Some listed line is discounted and another is not. */
  predicate MixesPriceTypes(ids: seq<nat>, lines: seq<LineItem>, products: map<Slug, Product>)
    requires Priced(ids, lines, products)
  {
    && (exists x :: x in ids && HasDiscount(products[lines[x].product]))
    && (exists y :: y in ids && !HasDiscount(products[lines[y].product]))
  }

  /** As written, the loop raises exactly for an order that mixes discounted and undiscounted lines, and otherwise agrees with the exact subtotal. */
  lemma {:induction false} SubtotalAsWrittenRaisesIffMixed(ids: seq<nat>, lines: seq<LineItem>, products: map<Slug, Product>)
    requires Priced(ids, lines, products)
    ensures SubtotalAsWritten(ids, lines, products).None? <==> MixesPriceTypes(ids, lines, products)
    ensures SubtotalAsWritten(ids, lines, products).Some? ==>
              SubtotalAsWritten(ids, lines, products).value.1 == Subtotal(ids, lines, products)
    ensures SubtotalAsWritten(ids, lines, products).Some? ==>
              (SubtotalAsWritten(ids, lines, products).value.0 == PyInt <==> ids == [])
    ensures SubtotalAsWritten(ids, lines, products).Some? && ids != [] ==>
              forall x :: x in ids ==> LineType(products[lines[x].product]) == SubtotalAsWritten(ids, lines, products).value.0
  {
    if ids != [] {
      var pre, last := ids[..|ids| - 1], ids[|ids| - 1];
      assert ids == pre + [last] && last in ids;
      assert forall y :: y in pre ==> y in ids;
      SubtotalAsWrittenRaisesIffMixed(pre, lines, products);
      var t := LineType(products[lines[last].product]);
      if SubtotalAsWritten(pre, lines, products).Some? && pre != [] {
        var acc := SubtotalAsWritten(pre, lines, products).value.0;
        if acc != t {
          assert pre[0] in pre && LineType(products[lines[pre[0]].product]) == acc;
          assert MixesPriceTypes(ids, lines, products) by {
            if t == PyFloat {
              assert HasDiscount(products[lines[last].product]) && !HasDiscount(products[lines[pre[0]].product]);
            } else {
              assert !HasDiscount(products[lines[last].product]) && HasDiscount(products[lines[pre[0]].product]);
            }
          }
        } else {
          assert forall x :: x in ids ==> LineType(products[lines[x].product]) == t;
          assert !MixesPriceTypes(ids, lines, products);
        }
      } else if SubtotalAsWritten(pre, lines, products).Some? {
        assert ids == [last];
        assert !MixesPriceTypes(ids, lines, products);
      } else {
        var x :| x in pre && HasDiscount(products[lines[x].product]);
        var y :| y in pre && !HasDiscount(products[lines[y].product]);
        assert x in ids && y in ids;
      }
    }
  }

  /** An order with one undiscounted line at 20.00 and one line discounted to 25.00: as written `get_total` raises, the exact subtotal is 45.00. */
  lemma MixedOrderTotalRaises()
    ensures var products := map["plain" := Product("Plain", 2000, None), "sale" := Product("Sale", 3000, Some(2500))];
            var lines := [NewLineItem(1, "plain"), NewLineItem(1, "sale")];
            && Priced([0, 1], lines, products)
            && SubtotalAsWritten([0, 1], lines, products).None?
            && Subtotal([0, 1], lines, products) == 4500
  {
    var products := map["plain" := Product("Plain", 2000, None), "sale" := Product("Sale", 3000, Some(2500))];
    var lines := [NewLineItem(1, "plain"), NewLineItem(1, "sale")];
    assert [0, 1][..1] == [0] && [0][..0] == [];
    SubtotalAsWrittenRaisesIffMixed([0, 1], lines, products);
    assert 0 in [0, 1] && 1 in [0, 1];
    assert MixesPriceTypes([0, 1], lines, products);
  }

  // ---------------------------------------------------------------------------
  // Review validators

  /**
   * A Python Decimal as `as_tuple()` gives it: sign, coefficient digits
   * (most significant first) and exponent. Its value is
   * (-1)^negative * coefficient * 10^exponent.
   */
  datatype DecimalTuple = DecimalTuple(negative: bool, digits: seq<nat>, exponent: int)

  function Pow10(n: nat): (r: nat)
    ensures r >= 1
  {
    if n == 0 then 1 else 10 * Pow10(n - 1)
  }

  function Coefficient(digits: seq<nat>): nat
  {
    if digits == [] then 0 else Coefficient(digits[..|digits| - 1]) * 10 + digits[|digits| - 1]
  }

  /** The number of digits and of decimal places that DecimalValidator counts (Django 3.2). */
  function DigitsAndDecimals(d: DecimalTuple): (nat, nat)
  {
    if d.exponent >= 0 then (|d.digits| + d.exponent, 0)
    else if -d.exponent > |d.digits| then (-d.exponent, -d.exponent)
    else (|d.digits|, -d.exponent)
  }

  /** DecimalValidator(max_digits=2, decimal_places=1). */
  predicate FitsRatingColumn(d: DecimalTuple)
  {
    var (digits, decimals) := DigitsAndDecimals(d);
    digits <= 2 && decimals <= 1 && digits - decimals <= 1
  }

  /** Ten times the value, for a decimal with at most one decimal place. */
  function Tenths(d: DecimalTuple): int
    requires d.exponent >= -1
  {
    (if d.negative then -1 else 1) * Coefficient(d.digits) * Pow10(d.exponent + 1)
  }

  /** The value times 10^scale, for a scale that makes it whole. */
  function Scaled(d: DecimalTuple, scale: nat): int
    requires d.exponent + scale >= 0
  {
    (if d.negative then -1 else 1) * Coefficient(d.digits) * Pow10(d.exponent + scale)
  }

  function RatingScale(d: DecimalTuple): nat
  {
    if d.exponent >= -1 then 1 else -d.exponent
  }

  /** MinValueValidator(0.1) and MaxValueValidator(5.0), compared exactly at the decimal's own scale. */
  predicate WithinRatingRange(d: DecimalTuple)
  {
    var s := RatingScale(d);
    Pow10(s - 1) <= Scaled(d, s) <= 5 * Pow10(s)
  }

  /** Every digit is a decimal digit. */
  predicate WellFormedDecimal(d: DecimalTuple)
  {
    |d.digits| > 0 && forall i :: 0 <= i < |d.digits| ==> d.digits[i] < 10
  }

  /** `Review.rating` passes all three of its validators. */
  predicate ValidRating(d: DecimalTuple)
  {
    WellFormedDecimal(d) && FitsRatingColumn(d) && WithinRatingRange(d)
  }

  /** MinLengthValidator(10). */
  predicate ValidComment(comment: string)
  {
    |comment| >= 10
  }

  /** A valid rating has at most one decimal place and lies between 0.1 and 5.0. */
  lemma ValidRatingIsTenthInRange(d: DecimalTuple)
    requires ValidRating(d)
    ensures d.exponent >= -1
    ensures 1 <= Tenths(d) <= 50
  {
    assert RatingScale(d) == 1;
    assert Scaled(d, 1) == Tenths(d);
  }

  /** The one-digit or two-digit coefficient of k tenths, written with one decimal place. */
  function RatingOf(k: nat): DecimalTuple
  {
    if k < 10 then DecimalTuple(false, [k], -1) else DecimalTuple(false, [k / 10, k % 10], -1)
  }

  /** Every rating from 0.1 to 5.0 in steps of 0.1 is accepted, written with one decimal place. */
  lemma EveryTenthInRangeIsValid(k: nat)
    requires 1 <= k <= 50
    ensures ValidRating(RatingOf(k)) && Tenths(RatingOf(k)) == k
  {
    var d := RatingOf(k);
    if k < 10 {
      assert [k][..0] == [];
      assert Coefficient(d.digits) == k;
    } else {
      assert [k / 10, k % 10][..1] == [k / 10];
      assert [k / 10][..0] == [];
      assert Coefficient([k / 10]) == k / 10;
      assert Coefficient(d.digits) == (k / 10) * 10 + k % 10 == k;
    }
    assert Scaled(d, RatingScale(d)) == Tenths(d);
  }

  /** "5.00" has the right value but three digits and two decimal places, so it is refused. */
  lemma TrailingZeroRatingRefused()
    ensures !ValidRating(DecimalTuple(false, [5, 0, 0], -2))
  {
  }

  /** The comment validator counts characters: nine are refused, ten are enough, and appending text never makes a comment invalid. */
  lemma CommentLengthBoundary(comment: string, more: string)
    ensures !ValidComment("Too short") && ValidComment("Lovely art")
    ensures ValidComment(comment) ==> ValidComment(comment + more)
  {
  }
}
