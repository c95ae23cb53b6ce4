/** The persisted entities the order and coupon actions read and write, and
    the store that holds them. A database row is a datatype value; the
    tables are fields of the `Store` class that the actions reassign. */
module Schema {
  import opened Wrappers
  import opened Strings

  /** The fulfilment lifecycle an admin moves an order through. */
  datatype OrderStatus = Pending | Accepted | InProgress | Shipped | Delivered | Rejected

  /** The enum member's name, as the status is written in emails. */
  function StatusName(s: OrderStatus): string
  {
    match s
    case Pending => "Pending"
    case Accepted => "Accepted"
    case InProgress => "InProgress"
    case Shipped => "Shipped"
    case Delivered => "Delivered"
    case Rejected => "Rejected"
  }

  /** The settlement state reported by the payment gateway. */
  datatype PaymentStatus = PENDING | PAID | FAILED

  datatype PaymentMethod = ONLINE | COD

  /** A value of a product's custom field as the customer typed it. */
  datatype CustomValue = Text(text: string) | Number(number: int)

  /** customInput: a JSON object, as its key/value pairs in insertion order. */
  type CustomInput = seq<(string, CustomValue)>

  /** A registered account; the order email greets it by name. */
  datatype User = User(id: string, name: Option<string>, email: string)

  datatype Product = Product(id: string, name: string, price: int, stock: int)

  /** A coupon row. minOrderValue and maxDiscount are decimals (any stored
      value, zero included, is truthy); usageLimit is an integer (0 is falsy). */
  datatype Coupon = Coupon(
    id: string,
    code: string,
    description: Option<string>,
    discountType: string,
    discountValue: int,
    minOrderValue: Option<int>,
    maxDiscount: Option<int>,
    usageLimit: Option<int>,
    usedCount: int,
    isActive: bool,
    expiresAt: Option<int>)

  datatype Order = Order(
    id: string,
    userId: string,
    status: OrderStatus,
    subtotal: int,
    discount: int,
    tax: int,
    shipping: int,
    totalAmount: int,
    address: string,
    paymentMethod: PaymentMethod,
    paymentStatus: PaymentStatus,
    paymentSessionId: Option<string>,
    paymentId: Option<string>,
    couponId: Option<string>,
    couponCode: Option<string>)

  datatype OrderItem = OrderItem(
    orderId: string,
    productId: string,
    quantity: int,
    price: int,
    customInput: Option<CustomInput>)

  /** The signed-in user of the request's session. */
  datatype SessionUser = SessionUser(id: string, email: string, role: string)

  predicate IsAdmin(session: Option<SessionUser>)
  {
    session.Some? && session.value.role == "ADMIN"
  }

  /** The index of the coupon row with this id, if any. */
  function CouponIndexById(coupons: seq<Coupon>, id: string): (r: Option<nat>)
    ensures r.Some? ==> r.value < |coupons| && coupons[r.value].id == id
    ensures r.Some? ==> forall j :: 0 <= j < r.value ==> coupons[j].id != id
    ensures r.None? ==> forall j :: 0 <= j < |coupons| ==> coupons[j].id != id
  {
    if coupons == [] then None
    else if coupons[0].id == id then Some(0)
    else match CouponIndexById(coupons[1..], id)
      case None => None
      case Some(k) => Some(k + 1)
  }

  /** The coupon row with this code, if any (findUnique on the unique code). */
  function CouponByCode(coupons: seq<Coupon>, code: string): (r: Option<Coupon>)
    ensures r.Some? ==> r.value in coupons && r.value.code == code
    ensures r.None? ==> forall c :: c in coupons ==> c.code != code
  {
    if coupons == [] then None
    else if coupons[0].code == code then Some(coupons[0])
    else CouponByCode(coupons[1..], code)
  }

  /** No two coupon rows share an id or a code. */
  ghost predicate UniqueCoupons(coupons: seq<Coupon>)
  {
    forall i, j :: 0 <= i < j < |coupons| ==> coupons[i].id != coupons[j].id && coupons[i].code != coupons[j].code
  }

  /** The tables' invariant on their values: every row is keyed by its id,
      coupon codes are unique and stored upper-cased, every order belongs to
      a user and every order item to an order and a product (the foreign
      keys). */
  ghost predicate Consistent(users: map<string, User>, products: map<string, Product>, coupons: seq<Coupon>,
                             orders: map<string, Order>, orderItems: seq<OrderItem>)
  {
    (forall id :: id in users ==> users[id].id == id)
    && (forall id :: id in products ==> products[id].id == id)
    && (forall id :: id in orders ==> orders[id].id == id && orders[id].userId in users)
    && UniqueCoupons(coupons)
    && (forall i :: 0 <= i < |coupons| ==> IsUpperCased(coupons[i].code))
    && (forall i :: 0 <= i < |orderItems| ==> orderItems[i].orderId in orders && orderItems[i].productId in products)
  }

  /** Rewriting one order row without touching its id or owner keeps the
      tables consistent. */
  lemma ReplaceOrderKeepsConsistent(users: map<string, User>, products: map<string, Product>, coupons: seq<Coupon>,
                                    orders: map<string, Order>, orderItems: seq<OrderItem>, id: string, o: Order)
    requires Consistent(users, products, coupons, orders, orderItems)
    requires id in orders && o.id == id && o.userId == orders[id].userId
    ensures Consistent(users, products, coupons, orders[id := o], orderItems)
  {
  }

  /** The tables the core reads and writes. */
  class Store {
    var users: map<string, User>
    var products: map<string, Product>
    var coupons: seq<Coupon>
    var orders: map<string, Order>
    var orderItems: seq<OrderItem>

    /** The invariant of the stored tables. */
    ghost predicate Valid()
      reads this
    {
      Consistent(users, products, coupons, orders, orderItems)
    }

    constructor (users: map<string, User>, products: map<string, Product>)
      requires forall id :: id in users ==> users[id].id == id
      requires forall id :: id in products ==> products[id].id == id
      ensures Valid()
      ensures this.users == users && this.products == products
      ensures coupons == [] && orders == map[] && orderItems == []
    {
      this.users := users;
      this.products := products;
      coupons := [];
      orders := map[];
      orderItems := [];
    }
  }
}
