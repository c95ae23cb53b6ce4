/** placeOrderAction and updateOrderStatusAction (src/app/actions/order.ts)
    as steps on the store. Placement first computes a plan from the session,
    the form and the tables (the early checks, the items, the coupon and the
    totals), then commits it in one atomic step, then asks the payment
    gateway for a session and records the answer on the new order. */
module OrderActions {
  import opened Wrappers
  import opened Strings
  import opened Schema
  import opened CheckoutValidation
  import opened OrderPricing
  import Email

  /** OrderActionResult. */
  datatype ActionResult = ActionResult(success: bool, error: Option<string>, orderId: Option<string>,
                                       paymentSessionId: Option<string>)

  function Failure(msg: string): ActionResult
  {
    ActionResult(false, Some(msg), None, None)
  }

  const LOGIN_MSG := "You must be logged in to place an order"
  const EMPTY_CART_MSG := "Cart is empty"
  const INVALID_CART_MSG := "Invalid cart"
  const PLACE_FAILED_MSG := "Failed to place order"
  const PAYMENT_INIT_MSG := "Failed to initiate online payment. Please try again."
  const ADMIN_STATUS_MSG := "Only admin can update order status"
  const ORDER_NOT_FOUND_MSG := "Order not found"

  // ---------------------------------------------------------------- the form

  /** JSON.parse of cartJson: a syntax error, a value that is not an array,
      or an array of cart lines. */
  datatype CartJson = Malformed | NotAnArray | CartArray(lines: seq<CartLine>)

  /** The fields of the checkout form; `cart` is what cartJson parses to. */
  datatype OrderForm = OrderForm(address: AddressForm, cartJson: Option<string>, cart: CartJson,
                                 couponCode: Option<string>)

  /** A session with a truthy email and a truthy user id. */
  predicate LoggedIn(session: Option<SessionUser>)
  {
    session.Some? && session.value.email != "" && session.value.id != ""
  }

  /** The cart of the form: a missing or empty cartJson, a non-array and an
      empty array are all an empty cart; unparsable text is an invalid one. */
  function ParseCart(form: OrderForm): (r: Result<seq<CartLine>, string>)
    ensures r.Ok? <==> form.cartJson.Some? && form.cartJson.value != "" && form.cart.CartArray? && form.cart.lines != []
    ensures r.Ok? ==> r.value == form.cart.lines
    ensures r.Err? ==> (r.error == INVALID_CART_MSG <==> form.cartJson.Some? && form.cartJson.value != "" && form.cart.Malformed?)
    ensures r.Err? ==> r.error == INVALID_CART_MSG || r.error == EMPTY_CART_MSG
  {
    if form.cartJson.None? || form.cartJson.value == "" then Err(EMPTY_CART_MSG)
    else match form.cart
      case Malformed => Err(INVALID_CART_MSG)
      case NotAnArray => Err(EMPTY_CART_MSG)
      case CartArray(lines) => if lines == [] then Err(EMPTY_CART_MSG) else Ok(lines)
  }

  // ---------------------------------------------------------------- the plan

  /** The discount applied and the coupon it is charged to. */
  datatype CouponChoice = CouponChoice(discount: int, couponId: Option<string>)

  /** The coupon step: a truthy code is validated against the subtotal; only
      an accepted, non-zero discount is applied, charged to the coupon that
      holds the upper-cased code. A rejected code is ignored. */
  function ChooseCoupon(coupons: seq<Coupon>, couponCode: Option<string>, subtotal: int, now: int): CouponChoice
  {
    if couponCode.None? || couponCode.value == "" then CouponChoice(0, None)
    else
      var check := ValidateCoupon(coupons, couponCode.value, subtotal, now);
      if check.CouponOk? && check.discount != 0 then
        var coupon := CouponByCode(coupons, ToUpper(couponCode.value));
        CouponChoice(check.discount, if coupon.Some? then Some(coupon.value.id) else None)
      else CouponChoice(0, None)
  }

  /** couponCode?.toUpperCase() || null: the code as typed, upper-cased,
      whether or not it was accepted. */
  function StoredCouponCode(couponCode: Option<string>): Option<string>
  {
    if couponCode.None? || ToUpper(couponCode.value) == "" then None else Some(ToUpper(couponCode.value))
  }

  /** Everything placement has decided before it writes. */
  datatype Plan = Plan(
    userId: string,
    email: string,
    address: Address,
    addressText: string,
    lines: seq<CartLine>,
    drafts: seq<ItemDraft>,
    subtotal: int,
    discount: int,
    tax: int,
    shipping: int,
    total: int,
    couponId: Option<string>,
    couponCode: Option<string>)

  /** The checks of placeOrderAction in their order (login, address, cart,
      stock) and, when all pass, the plan. The products fetched for the cart
      are looked up by id, so the whole product table stands in for them. */
  function PlanOrder(products: map<string, Product>, coupons: seq<Coupon>, session: Option<SessionUser>,
                     form: OrderForm, now: int): Result<Plan, string>
  {
    if !LoggedIn(session) then Err(LOGIN_MSG)
    else match ParseAddress(form.address)
      case Err(m) => Err(m)
      case Ok(address) =>
        match ParseCart(form)
        case Err(m) => Err(m)
        case Ok(lines) =>
          match FirstStockError(StockLines(lines), products)
          case Some(m) => Err(m)
          case None =>
            var subtotal := Subtotal(lines, products);
            var choice := ChooseCoupon(coupons, form.couponCode, subtotal, now);
            var tax := Tax(subtotal, choice.discount);
            Ok(Plan(session.value.id, session.value.email, address, FormatAddress(address), lines,
                    Drafts(lines, products), subtotal, choice.discount, tax, SHIPPING_FLAT,
                    subtotal - choice.discount + tax + SHIPPING_FLAT, choice.couponId,
                    StoredCouponCode(form.couponCode)))
  }

  /** The checks fail in their order, each with its own message, and a plan
      results exactly when the visitor is logged in, the address and the
      cart are accepted, and every line's product exists with enough stock. */
  lemma PlanOrderChecks(products: map<string, Product>, coupons: seq<Coupon>, session: Option<SessionUser>,
                        form: OrderForm, now: int)
    ensures !LoggedIn(session) ==> PlanOrder(products, coupons, session, form, now) == Err(LOGIN_MSG)
    ensures LoggedIn(session) && ParseAddress(form.address).Err? ==>
      PlanOrder(products, coupons, session, form, now) == Err(ParseAddress(form.address).error)
    ensures LoggedIn(session) && ParseAddress(form.address).Ok? && ParseCart(form).Err? ==>
      PlanOrder(products, coupons, session, form, now) == Err(ParseCart(form).error)
    ensures LoggedIn(session) && ParseAddress(form.address).Ok? && ParseCart(form).Ok?
            && FirstStockError(StockLines(ParseCart(form).value), products).Some? ==>
      PlanOrder(products, coupons, session, form, now) == Err(FirstStockError(StockLines(ParseCart(form).value), products).value)
    ensures PlanOrder(products, coupons, session, form, now).Ok? <==>
      LoggedIn(session) && ParseAddress(form.address).Ok? && ParseCart(form).Ok?
      && forall i :: 0 <= i < |form.cart.lines| ==>
           form.cart.lines[i].productId in products
           && products[form.cart.lines[i].productId].stock >= form.cart.lines[i].quantity
  {
    if LoggedIn(session) && ParseAddress(form.address).Ok? && ParseCart(form).Ok? {
      CartStockCheck(ParseCart(form).value, products);
    }
  }

  /** A plan charges what its items add up to, less the discount, with no tax
      or shipping; every line names an existing product with enough stock,
      and every item carries that product's price. */
  lemma PlanTotals(products: map<string, Product>, coupons: seq<Coupon>, session: Option<SessionUser>,
                   form: OrderForm, now: int)
    requires PlanOrder(products, coupons, session, form, now).Ok?
    ensures var p := PlanOrder(products, coupons, session, form, now).value;
      && p.tax == 0 && p.shipping == 0 && p.total == p.subtotal - p.discount
      && p.subtotal == ItemsTotal(p.drafts)
      && |p.drafts| == |p.lines|
      && forall i :: 0 <= i < |p.lines| ==>
           && p.lines[i].productId in products
           && products[p.lines[i].productId].stock >= p.lines[i].quantity
           && p.drafts[i].price == products[p.lines[i].productId].price
  {
    var p := PlanOrder(products, coupons, session, form, now).value;
    TotalIsSubtotalLessDiscount(p.subtotal, p.discount);
    SubtotalIsItemsTotal(p.lines, products);
    NoStockErrorIff(StockLines(p.lines), products);
    assert forall i :: 0 <= i < |p.lines| ==> InStock(StockLines(p.lines)[i], products);
    ServerPricesSnapshot(p.lines, products);
  }

  /** A coupon code that is rejected, or accepted with a zero discount,
      changes nothing about the price and is charged to no coupon, yet the
      order still records it upper-cased. */
  lemma PlanIgnoresRejectedCoupon(products: map<string, Product>, coupons: seq<Coupon>,
                                  session: Option<SessionUser>, form: OrderForm, now: int)
    requires PlanOrder(products, coupons, session, form, now).Ok?
    requires form.couponCode.Some? && form.couponCode.value != ""
    requires var check := ValidateCoupon(coupons, form.couponCode.value,
                                         PlanOrder(products, coupons, session, form, now).value.subtotal, now);
      check.CouponError? || check.discount == 0
    ensures var p := PlanOrder(products, coupons, session, form, now).value;
      p.discount == 0 && p.couponId.None? && p.couponCode == Some(ToUpper(form.couponCode.value))
      && p.total == p.subtotal
  {
    var p := PlanOrder(products, coupons, session, form, now).value;
    assert |ToUpper(form.couponCode.value)| == |form.couponCode.value|;
    TotalIsSubtotalLessDiscount(p.subtotal, p.discount);
  }

  /** An accepted code with a non-zero discount is applied in full and
      charged to the coupon row holding the upper-cased code. */
  lemma PlanAppliesAcceptedCoupon(products: map<string, Product>, coupons: seq<Coupon>,
                                  session: Option<SessionUser>, form: OrderForm, now: int)
    requires PlanOrder(products, coupons, session, form, now).Ok?
    requires form.couponCode.Some? && form.couponCode.value != ""
    requires var check := ValidateCoupon(coupons, form.couponCode.value,
                                         PlanOrder(products, coupons, session, form, now).value.subtotal, now);
      check.CouponOk? && check.discount != 0
    ensures var p := PlanOrder(products, coupons, session, form, now).value;
      var c := CouponByCode(coupons, ToUpper(form.couponCode.value));
      && c.Some? && c.value in coupons && c.value.code == ToUpper(form.couponCode.value)
      && Redeemable(c.value, p.subtotal, now)
      && p.couponId == Some(c.value.id)
      && p.discount == CouponDiscount(c.value, p.subtotal)
  {
  }

  /** Without a code nothing is discounted and nothing is recorded. */
  lemma PlanWithoutCoupon(products: map<string, Product>, coupons: seq<Coupon>,
                          session: Option<SessionUser>, form: OrderForm, now: int)
    requires PlanOrder(products, coupons, session, form, now).Ok?
    requires form.couponCode.None? || form.couponCode.value == ""
    ensures var p := PlanOrder(products, coupons, session, form, now).value;
      p.discount == 0 && p.couponId.None? && p.couponCode.None?
  {
  }

  // ---------------------------------------------------------- the transaction

  /** The order row the transaction creates. */
  function NewOrder(orderId: string, plan: Plan): Order
  {
    Order(orderId, plan.userId, Pending, plan.subtotal, plan.discount, plan.tax, plan.shipping, plan.total,
          plan.addressText, ONLINE, PENDING, None, None, plan.couponId, plan.couponCode)
  }

  /** The item rows of an order, one per draft in cart order. */
  function ItemRows(orderId: string, drafts: seq<ItemDraft>): (r: seq<OrderItem>)
    ensures |r| == |drafts|
    ensures forall i :: 0 <= i < |r| ==>
      r[i] == OrderItem(orderId, drafts[i].productId, drafts[i].quantity, drafts[i].price, Some(drafts[i].customInput))
  {
    seq(|drafts|, i requires 0 <= i < |drafts| =>
      OrderItem(orderId, drafts[i].productId, drafts[i].quantity, drafts[i].price, Some(drafts[i].customInput)))
  }

  /** The rows the transaction stores for a cart whose products all exist:
      one per line in cart order, each tied to the new order and holding the
      line's product, quantity and custom input at the product's price. */
  lemma ItemRowsSnapshot(orderId: string, lines: seq<CartLine>, products: map<string, Product>)
    requires forall i :: 0 <= i < |lines| ==> lines[i].productId in products
    ensures var rows := ItemRows(orderId, Drafts(lines, products));
      |rows| == |lines|
      && forall i :: 0 <= i < |lines| ==>
           && rows[i].orderId == orderId && rows[i].productId == lines[i].productId
           && rows[i].quantity == lines[i].quantity && rows[i].price == products[lines[i].productId].price
           && rows[i].customInput == Some(if lines[i].customInput.Some? then lines[i].customInput.value else [])
  {
    ServerPricesSnapshot(lines, products);
  }

  /** The stock decrements of the lines, in cart order; only stock changes. */
  function DecrementStock(products: map<string, Product>, lines: seq<CartLine>): (r: map<string, Product>)
    ensures r.Keys == products.Keys
    ensures forall id :: id in r ==> r[id] == products[id].(stock := r[id].stock)
    decreases |lines|
  {
    if lines == [] then products
    else
      var before := DecrementStock(products, lines[..|lines| - 1]);
      var line := lines[|lines| - 1];
      if line.productId in before then
        before[line.productId := before[line.productId].(stock := before[line.productId].stock - line.quantity)]
      else before
  }

  /** The total quantity the lines ask for one product. */
  function QuantityFor(lines: seq<CartLine>, productId: string): int
    decreases |lines|
  {
    if lines == [] then 0
    else QuantityFor(lines[..|lines| - 1], productId)
         + (if lines[|lines| - 1].productId == productId then lines[|lines| - 1].quantity else 0)
  }

  /** Each product loses the sum of the quantities of the lines naming it. */
  lemma {:induction false} DecrementStockSum(products: map<string, Product>, lines: seq<CartLine>)
    requires forall i :: 0 <= i < |lines| ==> lines[i].productId in products
    ensures forall id :: id in products ==>
      DecrementStock(products, lines)[id].stock == products[id].stock - QuantityFor(lines, id)
    decreases |lines|
  {
    if lines != [] {
      DecrementStockSum(products, lines[..|lines| - 1]);
    }
  }

  /** Two lines for the one unit of a product both pass the stock check, and
      the stock ends at -1. */
  lemma DuplicateLinesOversell()
    ensures var products := map["lamp" := Product("lamp", "Lamp", 100, 1)];
      var line := CartLine("lamp", 1, 100, None);
      && FirstStockError(StockLines([line, line]), products).None?
      && DecrementStock(products, [line, line])["lamp"].stock == -1
  {
    var products := map["lamp" := Product("lamp", "Lamp", 100, 1)];
    var line := CartLine("lamp", 1, 100, None);
    NoStockErrorIff(StockLines([line, line]), products);
    DecrementStockSum(products, [line, line]);
    assert [line, line][..1] == [line];
    assert QuantityFor([line, line], "lamp") == 2 by {
      assert QuantityFor([line], "lamp") == 1 by { assert [line][..0] == []; }
    }
  }

  /** usedCount + 1 on the coupon with this id. */
  function BumpUsage(coupons: seq<Coupon>, couponId: string): (r: seq<Coupon>)
    ensures |r| == |coupons|
    ensures forall i :: 0 <= i < |r| ==> r[i] == coupons[i].(usedCount := r[i].usedCount)
    ensures forall i :: 0 <= i < |r| ==>
      r[i].usedCount == coupons[i].usedCount + (if coupons[i].id == couponId then 1 else 0)
  {
    seq(|coupons|, i requires 0 <= i < |coupons| =>
      if coupons[i].id == couponId then coupons[i].(usedCount := coupons[i].usedCount + 1) else coupons[i])
  }

  /** With unique ids the increment is one update of one row. */
  lemma BumpUsageIsOneUpdate(coupons: seq<Coupon>, k: nat)
    requires UniqueCoupons(coupons) && k < |coupons|
    ensures BumpUsage(coupons, coupons[k].id) == coupons[k := coupons[k].(usedCount := coupons[k].usedCount + 1)]
  {
  }

  /** The coupon table after the transaction: bumped iff couponId is truthy. */
  function CouponsAfter(coupons: seq<Coupon>, couponId: Option<string>): seq<Coupon>
  {
    if couponId.Some? && couponId.value != "" then BumpUsage(coupons, couponId.value) else coupons
  }

  /** The loop of the transaction that takes each line's quantity off its
      product's stock. */
  method ApplyStockDecrements(db: Store, lines: seq<CartLine>)
    requires forall i :: 0 <= i < |lines| ==> lines[i].productId in db.products
    modifies db
    ensures db.products == DecrementStock(old(db.products), lines)
    ensures db.users == old(db.users) && db.coupons == old(db.coupons)
    ensures db.orders == old(db.orders) && db.orderItems == old(db.orderItems)
  {
    var products := db.products;
    var i := 0;
    while i < |lines|
      invariant 0 <= i <= |lines|
      invariant products == DecrementStock(db.products, lines[..i])
    {
      var line := lines[i];
      var p := products[line.productId];
      products := products[line.productId := p.(stock := p.stock - line.quantity)];
      assert lines[..i + 1][..i] == lines[..i];
      i := i + 1;
    }
    assert lines[..i] == lines;
    db.products := products;
  }

  /** The transaction: the order, its items, the stock decrements and the
      coupon usage, all at once. */
  method CommitOrder(db: Store, orderId: string, plan: Plan) returns (order: Order)
    requires db.Valid()
    requires orderId !in db.orders && plan.userId in db.users
    requires forall i :: 0 <= i < |plan.lines| ==> plan.lines[i].productId in db.products
    requires plan.drafts == Drafts(plan.lines, db.products)
    modifies db
    ensures db.Valid()
    ensures order == NewOrder(orderId, plan)
    ensures db.users == old(db.users)
    ensures db.orders == old(db.orders)[orderId := order]
    ensures db.orderItems == old(db.orderItems) + ItemRows(orderId, plan.drafts)
    ensures db.products == DecrementStock(old(db.products), plan.lines)
    ensures db.coupons == CouponsAfter(old(db.coupons), plan.couponId)
  {
    CommitKeepsConsistent(db.users, db.products, db.coupons, db.orders, db.orderItems, orderId, plan);
    order := NewOrder(orderId, plan);
    db.orders := db.orders[orderId := order];
    db.orderItems := db.orderItems + ItemRows(orderId, plan.drafts);
    ApplyStockDecrements(db, plan.lines);
    if plan.couponId.Some? && plan.couponId.value != "" {
      db.coupons := BumpUsage(db.coupons, plan.couponId.value);
    }
  }

  /** The transaction's writes keep the tables consistent: the new order
      belongs to an existing user, its items point at it and at existing
      products, stock changes leave every product keyed by its id and the
      usage bump changes no code. */
  lemma CommitKeepsConsistent(users: map<string, User>, products: map<string, Product>, coupons: seq<Coupon>,
                              orders: map<string, Order>, orderItems: seq<OrderItem>, orderId: string, plan: Plan)
    requires Consistent(users, products, coupons, orders, orderItems)
    requires plan.userId in users
    requires forall i :: 0 <= i < |plan.lines| ==> plan.lines[i].productId in products
    requires plan.drafts == Drafts(plan.lines, products)
    ensures Consistent(users, DecrementStock(products, plan.lines), CouponsAfter(coupons, plan.couponId),
                       orders[orderId := NewOrder(orderId, plan)], orderItems + ItemRows(orderId, plan.drafts))
  {
    NewRowsPointToTables(orders, products, orderItems, orderId, plan);
    var coupons' := CouponsAfter(coupons, plan.couponId);
    assert forall i :: 0 <= i < |coupons'| ==> coupons'[i].code == coupons[i].code && coupons'[i].id == coupons[i].id;
  }

  /** The item rows after the commit name a stored order and a stored
      product, the new ones included. */
  lemma NewRowsPointToTables(orders: map<string, Order>, products: map<string, Product>,
                             orderItems: seq<OrderItem>, orderId: string, plan: Plan)
    requires forall i :: 0 <= i < |orderItems| ==> orderItems[i].orderId in orders && orderItems[i].productId in products
    requires forall i :: 0 <= i < |plan.lines| ==> plan.lines[i].productId in products
    requires plan.drafts == Drafts(plan.lines, products)
    ensures var all := orderItems + ItemRows(orderId, plan.drafts);
      forall i :: 0 <= i < |all| ==> all[i].orderId in orders[orderId := NewOrder(orderId, plan)] && all[i].productId in products
  {
    var orders' := orders[orderId := NewOrder(orderId, plan)];
    var rows := ItemRows(orderId, plan.drafts);
    forall i | 0 <= i < |orderItems + rows|
      ensures (orderItems + rows)[i].orderId in orders' && (orderItems + rows)[i].productId in products
    {
      if i >= |orderItems| {
        var k := i - |orderItems|;
        assert (orderItems + rows)[i] == rows[k];
        assert plan.drafts[k].productId == plan.lines[k].productId;
      }
    }
  }

  // ------------------------------------------------------- the payment step

  /** createOrderRequest for PGCreateOrder. */
  datatype GatewayRequest = GatewayRequest(
    orderId: string,
    amount: int,
    currency: string,
    customerId: string,
    customerPhone: string,
    customerName: string,
    customerEmail: string,
    returnUrl: string,
    notifyUrl: string,
    note: string)

  /** What PGCreateOrder did: answered (with a session id, or without one),
      or threw. */
  datatype GatewayOutcome = SessionCreated(sessionId: Option<string>) | GatewayThrew

  function SessionRequest(orderId: string, plan: Plan, baseUrl: string): GatewayRequest
  {
    GatewayRequest(orderId, plan.total, "INR", plan.userId, plan.address.phone, plan.address.fullName,
                   if plan.email != "" then plan.email else "guest@example.com",
                   baseUrl + "/orders/verify?order_id=" + orderId, baseUrl + "/api/cashfree/webhook",
                   "3D Print Order")
  }

  /** The order after the payment step: FAILED when the gateway threw;
      otherwise PENDING with the session id (an undefined id writes nothing). */
  function AfterSession(order: Order, outcome: GatewayOutcome): (r: Order)
    ensures r.(paymentStatus := order.paymentStatus, paymentSessionId := order.paymentSessionId) == order
    ensures r.paymentStatus == (if outcome.GatewayThrew? then FAILED else PENDING)
    ensures outcome.SessionCreated? && outcome.sessionId.Some? ==> r.paymentSessionId == outcome.sessionId
    ensures outcome.GatewayThrew? || outcome.sessionId.None? ==> r.paymentSessionId == order.paymentSessionId
  {
    match outcome
    case GatewayThrew => order.(paymentStatus := FAILED)
    case SessionCreated(sid) =>
      order.(paymentSessionId := if sid.Some? then sid else order.paymentSessionId, paymentStatus := PENDING)
  }

  function SessionResult(orderId: string, outcome: GatewayOutcome): (r: ActionResult)
    ensures r.success <==> outcome.SessionCreated?
    ensures r.success ==> r.orderId == Some(orderId) && r.paymentSessionId == outcome.sessionId
    ensures !r.success ==> r == Failure(PAYMENT_INIT_MSG)
  {
    match outcome
    case GatewayThrew => Failure(PAYMENT_INIT_MSG)
    case SessionCreated(sid) => ActionResult(true, None, Some(orderId), sid)
  }

  /** The steps of placeOrderAction before its transaction: the early
      checks, the item loop and the coupon. */
  method ComputePlan(products: map<string, Product>, coupons: seq<Coupon>, session: Option<SessionUser>,
                     form: OrderForm, now: int) returns (r: Result<Plan, string>)
    ensures r == PlanOrder(products, coupons, session, form, now)
  {
    if !LoggedIn(session) {
      return Err(LOGIN_MSG);
    }
    var user := session.value;
    var parsed := ParseAddress(form.address);
    if parsed.Err? {
      return Err(parsed.error);
    }
    var address := parsed.value;
    var cart := ParseCart(form);
    if cart.Err? {
      return Err(cart.error);
    }
    var lines := cart.value;
    var stockErr := ValidateStock(StockLines(lines), products);
    if stockErr.Some? {
      return Err(stockErr.value);
    }
    var addressText := FormatAddress(address);
    var drafts, subtotal := BuildOrderItems(lines, products);

    var discount := 0;
    var couponId: Option<string> := None;
    if form.couponCode.Some? && form.couponCode.value != "" {
      var code := form.couponCode.value;
      var check := ValidateCoupon(coupons, code, subtotal, now);
      if check.CouponOk? && check.discount != 0 {
        discount := check.discount;
        var coupon := CouponByCode(coupons, ToUpper(code));
        if coupon.Some? {
          couponId := Some(coupon.value.id);
        }
      }
    }
    assert CouponChoice(discount, couponId) == ChooseCoupon(coupons, form.couponCode, subtotal, now);
    var tax := Tax(subtotal, discount);
    var shipping := SHIPPING_FLAT;
    var total := subtotal - discount + tax + shipping;
    return Ok(Plan(user.id, user.email, address, addressText, lines, drafts, subtotal, discount, tax, shipping,
                   total, couponId, StoredCouponCode(form.couponCode)));
  }

  /** A plan names only existing products, and its items are the drafts of
      its lines. */
  lemma PlanLinesExist(products: map<string, Product>, coupons: seq<Coupon>, session: Option<SessionUser>,
                       form: OrderForm, now: int)
    requires PlanOrder(products, coupons, session, form, now).Ok?
    ensures var p := PlanOrder(products, coupons, session, form, now).value;
      && (forall i :: 0 <= i < |p.lines| ==> p.lines[i].productId in products)
      && p.drafts == Drafts(p.lines, products)
  {
    var p := PlanOrder(products, coupons, session, form, now).value;
    NoStockErrorIff(StockLines(p.lines), products);
    assert forall i :: 0 <= i < |p.lines| ==> InStock(StockLines(p.lines)[i], products);
  }

  /** The error text of the action's outer catch: the thrown Error's
      message, or the fixed text when what was thrown is not an Error. */
  function ThrownMessage(thrown: Option<string>): (m: string)
    ensures thrown.Some? ==> m == thrown.value
    ensures thrown.None? ==> m == PLACE_FAILED_MSG
  {
    if thrown.Some? then thrown.value else PLACE_FAILED_MSG
  }

  /** placeOrderAction. The database assigns the new order's id; it is
      `newOrderId` here, and a clash with an existing order (as a user id
      without a user row) makes the transaction throw and roll back.
      `txError` is what the database then throws: the message of an Error
      (Some), or a value that is not an Error (None). */
  method PlaceOrder(db: Store, session: Option<SessionUser>, form: OrderForm, now: int, newOrderId: string,
                    baseUrl: string, createSession: GatewayRequest -> GatewayOutcome, txError: Option<string>)
    returns (r: ActionResult)
    requires db.Valid()
    modifies db
    ensures db.Valid()
    ensures var plan := PlanOrder(old(db.products), old(db.coupons), session, form, now);
      plan.Err? ==> r == Failure(plan.error) && unchanged(db)
    ensures var plan := PlanOrder(old(db.products), old(db.coupons), session, form, now);
      plan.Ok? && (newOrderId in old(db.orders) || plan.value.userId !in old(db.users))
      ==> r == Failure(ThrownMessage(txError)) && unchanged(db)
    ensures var plan := PlanOrder(old(db.products), old(db.coupons), session, form, now);
      plan.Ok? && newOrderId !in old(db.orders) && plan.value.userId in old(db.users) ==>
        var outcome := createSession(SessionRequest(newOrderId, plan.value, baseUrl));
        && db.users == old(db.users)
        && db.orders == old(db.orders)[newOrderId := AfterSession(NewOrder(newOrderId, plan.value), outcome)]
        && db.orderItems == old(db.orderItems) + ItemRows(newOrderId, plan.value.drafts)
        && db.products == DecrementStock(old(db.products), plan.value.lines)
        && db.coupons == CouponsAfter(old(db.coupons), plan.value.couponId)
        && r == SessionResult(newOrderId, outcome)
  {
    var planned := ComputePlan(db.products, db.coupons, session, form, now);
    if planned.Err? {
      return Failure(planned.error);
    }
    var plan := planned.value;
    if newOrderId in db.orders || plan.userId !in db.users {
      return Failure(ThrownMessage(txError));
    }
    PlanLinesExist(db.products, db.coupons, session, form, now);
    var order := CommitOrder(db, newOrderId, plan);
    r := RecordPaymentSession(db, order, createSession(SessionRequest(newOrderId, plan, baseUrl)));
    OverwriteTwice(old(db.orders), newOrderId, order,
                   AfterSession(order, createSession(SessionRequest(newOrderId, plan, baseUrl))));
  }

  /** The step after the commit: the gateway's answer written to the order. */
  method RecordPaymentSession(db: Store, order: Order, outcome: GatewayOutcome) returns (r: ActionResult)
    requires db.Valid() && order.id in db.orders && db.orders[order.id] == order
    modifies db
    ensures db.Valid()
    ensures db.orders == old(db.orders)[order.id := AfterSession(order, outcome)]
    ensures db.users == old(db.users) && db.products == old(db.products)
    ensures db.coupons == old(db.coupons) && db.orderItems == old(db.orderItems)
    ensures r == SessionResult(order.id, outcome)
  {
    match outcome {
      case GatewayThrew =>
        db.orders := db.orders[order.id := order.(paymentStatus := FAILED)];
        r := Failure(PAYMENT_INIT_MSG);
      case SessionCreated(sid) =>
        db.orders := db.orders[order.id := order.(paymentSessionId := if sid.Some? then sid else order.paymentSessionId,
                                                   paymentStatus := PENDING)];
        r := ActionResult(true, None, Some(order.id), sid);
    }
  }

  /** A second write of a key replaces the first. */
  lemma OverwriteTwice(m: map<string, Order>, k: string, a: Order, b: Order)
    ensures m[k := a][k := b] == m[k := b]
  {
  }

  /** The stored address shows in the status email line by line, each line
      break turned into "<br/>", when no field holds a line break itself. */
  lemma AddressShownInEmail(a: Address)
    requires '\n' !in a.fullName && '\n' !in a.addressLine1 && '\n' !in a.city && '\n' !in a.state
    requires '\n' !in a.pincode && '\n' !in a.phone
    requires a.addressLine2.Some? ==> '\n' !in a.addressLine2.value
    ensures Email.NewlinesToBreaks(FormatAddress(a)) == Join(NonEmpty(AddressParts(a)), "<br/>")
  {
    var parts := AddressParts(a);
    assert forall i :: 0 <= i < |parts| ==> '\n' !in parts[i];
    NonEmptyKeepsNonEmptyParts(parts);
    Email.LinesBecomeBreaks(NonEmpty(parts));
  }

  // ---------------------------------------------------------- status update

  /** The items of one order, in table order. */
  function ItemsOf(items: seq<OrderItem>, orderId: string): (r: seq<OrderItem>)
    ensures forall i :: 0 <= i < |r| ==> r[i].orderId == orderId && r[i] in items
    ensures forall it :: it in items && it.orderId == orderId ==> it in r
  {
    if items == [] then []
    else (if items[0].orderId == orderId then [items[0]] else []) + ItemsOf(items[1..], orderId)
  }

  /** The selection works row by row: the items of a concatenation are the
      items of each piece, so they keep the table order and every copy. */
  lemma {:induction false} ItemsOfAppend(a: seq<OrderItem>, b: seq<OrderItem>, orderId: string)
    ensures ItemsOf(a + b, orderId) == ItemsOf(a, orderId) + ItemsOf(b, orderId)
  {
    if a == [] {
      assert a + b == b;
    } else {
      var h := if a[0].orderId == orderId then [a[0]] else [];
      calc {
        ItemsOf(a + b, orderId);
        { assert a + b == [a[0]] + (a[1..] + b); }
        ItemsOf([a[0]] + (a[1..] + b), orderId);
        { ItemsOfCons(a[0], a[1..] + b, orderId); }
        h + ItemsOf(a[1..] + b, orderId);
        { ItemsOfAppend(a[1..], b, orderId); }
        h + (ItemsOf(a[1..], orderId) + ItemsOf(b, orderId));
        { SeqAssoc(h, ItemsOf(a[1..], orderId), ItemsOf(b, orderId)); }
        (h + ItemsOf(a[1..], orderId)) + ItemsOf(b, orderId);
        { ItemsOfCons(a[0], a[1..], orderId); assert [a[0]] + a[1..] == a; }
        ItemsOf(a, orderId) + ItemsOf(b, orderId);
      }
    }
  }

  /** One unfolding of the selection. */
  lemma ItemsOfCons(h: OrderItem, t: seq<OrderItem>, orderId: string)
    ensures ItemsOf([h] + t, orderId) == (if h.orderId == orderId then [h] else []) + ItemsOf(t, orderId)
  {
    assert ([h] + t)[0] == h;
    assert ([h] + t)[1..] == t;
  }

  /** One row is selected exactly when it belongs to the order. */
  lemma ItemsOfSingleton(it: OrderItem, orderId: string)
    ensures ItemsOf([it], orderId) == if it.orderId == orderId then [it] else []
  {
  }

  /** The order as the email receives it: its items with their products'
      names, and its user. */
  function EmailOrderOf(order: Order, user: User, items: seq<OrderItem>, products: map<string, Product>): Email.EmailOrder
    requires forall i :: 0 <= i < |items| ==> items[i].productId in products
  {
    var mine := ItemsOf(items, order.id);
    assert forall i :: 0 <= i < |mine| ==> mine[i].productId in products;
    Email.EmailOrder(order.id, user.name, user.email,
      seq(|mine|, i requires 0 <= i < |mine| =>
        Email.EmailItem(products[mine[i].productId].name, mine[i].quantity, mine[i].price, mine[i].customInput)),
      order.totalAmount, order.address)
  }

  /** updateOrderStatusAction: admins only; the order's status is the one
      field written. `notice` is the order handed, with the new status, to
      Email.SendOrderStatusEmail after the write; that call never throws and
      its outcome does not affect the result. */
  method UpdateOrderStatus(db: Store, session: Option<SessionUser>, orderId: string, newStatus: OrderStatus)
    returns (r: ActionResult, notice: Option<Email.EmailOrder>)
    requires db.Valid()
    modifies db
    ensures db.Valid()
    ensures !IsAdmin(session) ==> r == Failure(ADMIN_STATUS_MSG) && notice.None? && unchanged(db)
    ensures IsAdmin(session) && orderId !in old(db.orders) ==>
      r == Failure(ORDER_NOT_FOUND_MSG) && notice.None? && unchanged(db)
    ensures IsAdmin(session) && orderId in old(db.orders) ==>
      && db.orders == old(db.orders)[orderId := old(db.orders)[orderId].(status := newStatus)]
      && db.users == old(db.users) && db.products == old(db.products)
      && db.coupons == old(db.coupons) && db.orderItems == old(db.orderItems)
      && r == ActionResult(true, None, Some(orderId), None)
      && notice == Some(EmailOrderOf(old(db.orders)[orderId], old(db.users)[old(db.orders)[orderId].userId],
                                     old(db.orderItems), old(db.products)))
  {
    if !IsAdmin(session) {
      return Failure(ADMIN_STATUS_MSG), None;
    }
    if orderId !in db.orders {
      return Failure(ORDER_NOT_FOUND_MSG), None;
    }
    var order := db.orders[orderId];
    var emailOrder := EmailOrderOf(order, db.users[order.userId], db.orderItems, db.products);
    db.orders := db.orders[orderId := order.(status := newStatus)];
    return ActionResult(true, None, Some(orderId), None), Some(emailOrder);
  }
}
