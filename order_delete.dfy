/** deleteOrderAction (src/app/actions/order-delete.ts): an admin removes an
    order; the database cascades the delete to the order's items. Stock and
    coupon usage taken by the order are not given back. */
module OrderDelete {
  import opened Wrappers
  import opened Schema
  import opened OrderActions

  const UNAUTHORIZED_MSG := "Unauthorized"
  const DELETE_ORDER_FAILED_MSG := "Failed to delete order"

  /** The item rows left after the cascade: those of other orders, in order. */
  function ItemsNotOf(items: seq<OrderItem>, orderId: string): (r: seq<OrderItem>)
    ensures |r| <= |items|
  {
    if items == [] then []
    else (if items[0].orderId == orderId then [] else [items[0]]) + ItemsNotOf(items[1..], orderId)
  }

  /** The cascade leaves no item of the order and every item of the others. */
  lemma {:induction false} ItemsNotOfContents(items: seq<OrderItem>, orderId: string)
    ensures forall it :: it in ItemsNotOf(items, orderId) <==> it in items && it.orderId != orderId
  {
    if items != [] {
      ItemsNotOfContents(items[1..], orderId);
      assert items == [items[0]] + items[1..];
    }
  }

  /** The items of the order and the items left are the table split in two:
      together they are as many rows as before. */
  lemma {:induction false} CascadeSplitsItems(items: seq<OrderItem>, orderId: string)
    ensures |ItemsNotOf(items, orderId)| + |ItemsOf(items, orderId)| == |items|
  {
    if items != [] {
      CascadeSplitsItems(items[1..], orderId);
    }
  }

  /** Removing an order with its items keeps the tables consistent. */
  lemma DeleteKeepsConsistent(users: map<string, User>, products: map<string, Product>, coupons: seq<Coupon>,
                              orders: map<string, Order>, orderItems: seq<OrderItem>, orderId: string)
    requires Consistent(users, products, coupons, orders, orderItems)
    ensures Consistent(users, products, coupons, orders - {orderId}, ItemsNotOf(orderItems, orderId))
  {
    var left := ItemsNotOf(orderItems, orderId);
    ItemsNotOfContents(orderItems, orderId);
    forall i | 0 <= i < |left|
      ensures left[i].orderId in orders - {orderId} && left[i].productId in products
    {
      assert left[i] in left;
      var k :| 0 <= k < |orderItems| && orderItems[k] == left[i];
    }
  }

  /** deleteOrderAction: no session or a role other than ADMIN is refused;
      prisma.order.delete throws when no order has the id. */
  method DeleteOrder(db: Store, session: Option<SessionUser>, orderId: string) returns (r: ActionResult)
    requires db.Valid()
    modifies db
    ensures db.Valid()
    ensures db.users == old(db.users) && db.products == old(db.products) && db.coupons == old(db.coupons)
    ensures !IsAdmin(session) ==> r == Failure(UNAUTHORIZED_MSG) && unchanged(db)
    ensures IsAdmin(session) && orderId !in old(db.orders) ==> r == Failure(DELETE_ORDER_FAILED_MSG) && unchanged(db)
    ensures IsAdmin(session) && orderId in old(db.orders) ==>
      && r == ActionResult(true, None, None, None)
      && db.orders == old(db.orders) - {orderId}
      && db.orderItems == ItemsNotOf(old(db.orderItems), orderId)
  {
    if !IsAdmin(session) {
      return Failure(UNAUTHORIZED_MSG);
    }
    if orderId !in db.orders {
      return Failure(DELETE_ORDER_FAILED_MSG);
    }
    DeleteKeepsConsistent(db.users, db.products, db.coupons, db.orders, db.orderItems, orderId);
    db.orders := db.orders - {orderId};
    db.orderItems := ItemsNotOf(db.orderItems, orderId);
    r := ActionResult(true, None, None, None);
  }
}
