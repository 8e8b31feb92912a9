/**
 * The `make_refund_accepted` admin action: one bulk update over the orders
 * an administrator selected.
 */
module Admin {
  import opened Models
  import opened Store
  import Views

  /** The order after the update: requested is cleared, granted is set; the Refund rows are not touched. */
  function Granted(ord: Order): Order
  {
    ord.(refundRequested := false, refundGranted := true)
  }

  /** The orders after `queryset.update(refund_requested=False, refund_granted=True)` on the selected ids. */
  function GrantRefunds(orders: seq<Order>, selected: set<nat>): (r: seq<Order>)
    ensures |r| == |orders|
    ensures forall k :: 0 <= k < |orders| ==> r[k] == if k in selected then Granted(orders[k]) else orders[k]
  {
    if orders == [] then []
    else
      var pre, last := orders[..|orders| - 1], orders[|orders| - 1];
      GrantRefunds(pre, selected) + [if |orders| - 1 in selected then Granted(last) else last]
  }

  /** Every selected order ends with the refund granted and no longer requested. */
  lemma SelectedOrdersGranted(orders: seq<Order>, selected: set<nat>, k: nat)
    requires k < |orders| && k in selected
    ensures !GrantRefunds(orders, selected)[k].refundRequested && GrantRefunds(orders, selected)[k].refundGranted
  {
  }

  /** Only the two flags change: an order outside the selection is untouched, and a selected one keeps every other field. */
  lemma NothingElseChanges(orders: seq<Order>, selected: set<nat>, k: nat)
    requires k < |orders|
    ensures k !in selected ==> GrantRefunds(orders, selected)[k] == orders[k]
    ensures var g := GrantRefunds(orders, selected)[k];
            g.(refundRequested := orders[k].refundRequested, refundGranted := orders[k].refundGranted) == orders[k]
  {
  }

  /** Running the action twice on the same selection is the same as running it once. */
  lemma GrantRefundsIdempotent(orders: seq<Order>, selected: set<nat>)
    ensures GrantRefunds(GrantRefunds(orders, selected), selected) == GrantRefunds(orders, selected)
  {
  }

  /** The refund flags take no part in the store's invariants, so the action keeps the store valid. */
  lemma GrantRefundsPreservesValid(db: Db, selected: set<nat>)
    requires Valid(db)
    ensures Valid(db.(orders := GrantRefunds(db.orders, selected)))
  {
    var r := db.(orders := GrantRefunds(db.orders, selected));
    forall k | 0 <= k < |r.orders|
      ensures OrderWellFormed(r, r.orders[k])
    {
      assert OrderWellFormed(db, db.orders[k]);
    }
  }

  /** The action on the store's tables: the selected orders are updated one by one, every other table is untouched. */
  method MakeRefundAccepted(shop: Views.Shop, selected: set<nat>)
    requires shop.Valid()
    modifies shop
    ensures shop.Snapshot() == old(shop.Snapshot()).(orders := GrantRefunds(old(shop.orders), selected))
    ensures shop.Valid()
  {
    GrantRefundsPreservesValid(shop.Snapshot(), selected);
    var orders := shop.orders;
    var k := 0;
    while k < |orders|
      invariant 0 <= k <= |orders| && |orders| == |shop.orders|
      invariant forall i :: 0 <= i < k ==> orders[i] == if i in selected then Granted(shop.orders[i]) else shop.orders[i]
      invariant forall i :: k <= i < |orders| ==> orders[i] == shop.orders[i]
    {
      if k in selected {
        orders := orders[k := Granted(orders[k])];
      }
      k := k + 1;
    }
    shop.orders := orders;
  }
}
