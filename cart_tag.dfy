/**
 * The `cart_item_count` template filter behind the cart badge: a read-only
 * query that counts the lines of the user's open cart.
 */
module CartBadge {
  import opened Wrappers
  import opened Models
  import opened Store
  import Cart

  /**
   * 0 for an anonymous visitor, the number of lines in the open cart
   * otherwise; a logged-in user without an open cart falls off the end of
   * the filter, which returns `None`.
   */
  function CartItemCount(db: Db, who: Requester): (r: Option<nat>)
    ensures r.None? <==> who.Authenticated? && OpenOrderOf(db, who.id).None?
    ensures who.Anonymous? ==> r == Some(0)
  {
    match who
    case Anonymous => Some(0)
    case Authenticated(u) =>
      match OpenOrderOf(db, u)
      case Some(o) => Some(|db.orders[o].items|)
      case None => None
  }

  /** The products the listed lines are for. */
  function ProductsOf(ids: seq<nat>, lines: seq<LineItem>): (r: set<Slug>)
    ensures forall s :: s in r <==> exists x :: x in ids && x < |lines| && lines[x].product == s
  {
    if ids == [] then {}
    else
      var pre, last := ids[..|ids| - 1], ids[|ids| - 1];
      assert ids == pre + [last];
      ProductsOf(pre, lines) + (if last < |lines| then {lines[last].product} else {})
  }

  /** Distinct lines for distinct products: there are as many products as lines. */
  lemma {:induction false} DistinctProductsCount(ids: seq<nat>, lines: seq<LineItem>)
    requires NoDup(ids) && forall i :: 0 <= i < |ids| ==> ids[i] < |lines|
    requires forall i, j :: 0 <= i < j < |ids| ==> lines[ids[i]].product != lines[ids[j]].product
    ensures |ProductsOf(ids, lines)| == |ids|
  {
    if ids != [] {
      var pre, last := ids[..|ids| - 1], ids[|ids| - 1];
      assert forall i :: 0 <= i < |pre| ==> pre[i] == ids[i];
      assert NoDup(pre);
      DistinctProductsCount(pre, lines);
      var p := lines[last].product;
      assert p !in ProductsOf(pre, lines) by {
        forall x | x in pre && x < |lines|
          ensures lines[x].product != p
        {
          var i :| 0 <= i < |pre| && pre[i] == x;
          assert ids[i] == x;
        }
      }
      assert ProductsOf(ids, lines) == ProductsOf(pre, lines) + {p};
    }
  }

  /** The badge counts the distinct products in the cart, not the units: quantities do not enter it. */
  lemma CountIsDistinctProducts(db: Db, u: UserId, o: nat)
    requires Valid(db) && OpenOrderOf(db, u) == Some(o)
    ensures CartItemCount(db, Authenticated(u)) == Some(|ProductsOf(db.orders[o].items, db.lineItems)|)
  {
    var items := db.orders[o].items;
    assert OrderWellFormed(db, db.orders[o]);
    assert forall i :: 0 <= i < |items| ==> items[i] in items;
    forall i, j | 0 <= i < j < |items|
      ensures db.lineItems[items[i]].product != db.lineItems[items[j]].product
    {
      assert items[i] in items && items[j] in items;
    }
    DistinctProductsCount(items, db.lineItems);
  }

  /** The badge only distinguishes an open cart from none for a logged-in user. */
  lemma CountNoneIffNoCart(db: Db, who: Requester)
    ensures CartItemCount(db, who).None? <==> who.Authenticated? && OpenOrderOf(db, who.id).None?
    ensures who.Anonymous? ==> CartItemCount(db, who) == Some(0)
  {
  }

  /**
   * Adding a 20.00 print twice to an empty store leaves one line of two
   * units: the total is 40.00 and the badge shows 1.
   */
  lemma AddTwiceScenario()
    ensures var db0 := Db(map["print" := Product("Print", 2000, None)], [], [], [], [], [], []);
            var db2 := Cart.Add(Cart.Add(db0, 7, "print").0, 7, "print").0;
            && Valid(db2)
            && db2.lineItems == [LineItem(7, false, "print", 2)]
            && db2.orders == [NewOrder(7).(items := [0])]
            && OrderTotal(db2, 0) == 4000
            && CartItemCount(db2, Authenticated(7)) == Some(1)
  {
    var db0 := Db(map["print" := Product("Print", 2000, None)], [], [], [], [], [], []);
    EmptyStoreValid(db0.products, db0.coupons);
    Cart.AddPreservesValid(db0, 7, "print");
    var db1 := Cart.Add(db0, 7, "print").0;
    assert db1.lineItems == [NewLineItem(7, "print")];
    assert db1.orders == [NewOrder(7).(items := [0])];
    assert OpenOrderOf(db1, 7) == Some(0);
    assert Cart.InCart(db1, 0, "print") by {
      assert 0 in db1.orders[0].items;
    }
    Cart.AddPreservesValid(db1, 7, "print");
    var db2 := Cart.Add(db1, 7, "print").0;
    assert db2.lineItems == [LineItem(7, false, "print", 2)];
    assert [0][..0] == [];
    OrderTotalParts(db2, 0);
  }
}
