/** The pricing rules of the order actions (src/app/actions/order.ts): the
    coupon check and its discount, the stock check over the cart, the
    subtotal with its price snapshots, the totals and the stored address. */
module OrderPricing {
  import opened Wrappers
  import opened Strings
  import opened Schema
  import opened CheckoutValidation

  /** TAX_RATE, written as a percentage, and SHIPPING_FLAT. */
  const TAX_RATE_PERCENT := 0
  const SHIPPING_FLAT := 0

  /** Math.round(n / d) for a positive d: the nearest integer, halves upward. */
  function RoundDiv(n: int, d: int): (r: int)
    requires d > 0
    ensures 2 * r * d - d <= 2 * n < 2 * r * d + d
  {
    var m := 2 * n + d;
    var q := m / (2 * d);
    assert m == (2 * d) * q + m % (2 * d) && 0 <= m % (2 * d) < 2 * d;
    assert 2 * q * d == (2 * d) * q;
    q
  }

  function Min(a: int, b: int): int
  {
    if a < b then a else b
  }

  // ---------------------------------------------------------------- coupons

  const INVALID_COUPON_MSG := "Invalid coupon code"
  const INACTIVE_COUPON_MSG := "This coupon is no longer active"
  const EXPIRED_COUPON_MSG := "This coupon has expired"
  const USED_UP_COUPON_MSG := "This coupon has reached its usage limit"

  /** The rupee sign as the source file spells it in the minimum-order
      message: U+20B9's UTF-8 bytes read back as Windows-1252. */
  const MIN_ORDER_CURRENCY := "\U{E2}\U{201A}\U{B9}"

  function MinOrderMsg(min: int): string
  {
    "Minimum order value of " + MIN_ORDER_CURRENCY + IntToString(min) + " required"
  }

  /** The outcome of validateCouponAction. */
  datatype CouponCheck = CouponOk(discount: int, discountType: string) | CouponError(error: string)

  /** The expiry test: a set expiry strictly before now. */
  predicate Expired(c: Coupon, now: int)
  {
    c.expiresAt.Some? && now > c.expiresAt.value
  }

  /** The usage test: a truthy (set and non-zero) limit that usedCount has reached. */
  predicate UsedUp(c: Coupon)
  {
    c.usageLimit.Some? && c.usageLimit.value != 0 && c.usedCount >= c.usageLimit.value
  }

  /** The minimum-order test: a set minimum above the subtotal. */
  predicate BelowMinimum(c: Coupon, subtotal: int)
  {
    c.minOrderValue.Some? && subtotal < c.minOrderValue.value
  }

  /** A coupon that passes every check once found. */
  predicate Redeemable(c: Coupon, subtotal: int, now: int)
  {
    c.isActive && !Expired(c, now) && !UsedUp(c) && !BelowMinimum(c, subtotal)
  }

  /** The amount a coupon takes off: PERCENTAGE is the rounded percentage of
      the subtotal, capped by a set maxDiscount; any other type is the flat
      value, with no cap at the subtotal. */
  function CouponDiscount(c: Coupon, subtotal: int): int
  {
    if c.discountType == "PERCENTAGE" then
      var d := RoundDiv(subtotal * c.discountValue, 100);
      if c.maxDiscount.Some? then Min(d, c.maxDiscount.value) else d
    else c.discountValue
  }

  /** validateCouponAction: the coupon looked up by the upper-cased code, then
      checked for being active, unexpired, within its usage limit and met by
      the subtotal, in that order; the first check that fails names the
      error. */
  function ValidateCoupon(coupons: seq<Coupon>, code: string, subtotal: int, now: int): (r: CouponCheck)
    ensures var found := CouponByCode(coupons, ToUpper(code));
      && (found.None? ==> r == CouponError(INVALID_COUPON_MSG))
      && (found.Some? && !found.value.isActive ==> r == CouponError(INACTIVE_COUPON_MSG))
      && (found.Some? && found.value.isActive && Expired(found.value, now) ==> r == CouponError(EXPIRED_COUPON_MSG))
      && (found.Some? && found.value.isActive && !Expired(found.value, now) && UsedUp(found.value)
          ==> r == CouponError(USED_UP_COUPON_MSG))
      && (found.Some? && found.value.isActive && !Expired(found.value, now) && !UsedUp(found.value)
          && BelowMinimum(found.value, subtotal)
          ==> r == CouponError(MinOrderMsg(found.value.minOrderValue.value)))
      && (r.CouponOk? <==> found.Some? && Redeemable(found.value, subtotal, now))
      && (r.CouponOk? ==> (r.discount == CouponDiscount(found.value, subtotal)
                           && r.discountType == found.value.discountType))
  {
    match CouponByCode(coupons, ToUpper(code))
    case None => CouponError(INVALID_COUPON_MSG)
    case Some(c) =>
      if !c.isActive then CouponError(INACTIVE_COUPON_MSG)
      else if Expired(c, now) then CouponError(EXPIRED_COUPON_MSG)
      else if UsedUp(c) then CouponError(USED_UP_COUPON_MSG)
      else if BelowMinimum(c, subtotal) then CouponError(MinOrderMsg(c.minOrderValue.value))
      else CouponOk(CouponDiscount(c, subtotal), c.discountType)
  }

  /** A PERCENTAGE discount of at most 100% on a non-negative subtotal is the
      rounded share of the subtotal, never more than the subtotal, never more
      than a set cap, and never negative unless the cap is. */
  lemma PercentageDiscountBounds(c: Coupon, subtotal: int)
    requires c.discountType == "PERCENTAGE" && 0 <= c.discountValue <= 100 && subtotal >= 0
    ensures var d := CouponDiscount(c, subtotal);
      && d <= subtotal
      && (c.maxDiscount.Some? ==> d <= c.maxDiscount.value)
      && (c.maxDiscount.None? || c.maxDiscount.value >= 0 ==> d >= 0)
      && (c.maxDiscount.None? ==> 200 * d - 100 <= 2 * subtotal * c.discountValue < 200 * d + 100)
  {
    RoundedPercentInRange(subtotal, c.discountValue);
  }

  /** A rounded percentage of at most 100 of a non-negative amount lies
      between 0 and the amount. */
  lemma RoundedPercentInRange(amount: int, percent: int)
    requires 0 <= percent <= 100 && amount >= 0
    ensures 0 <= RoundDiv(amount * percent, 100) <= amount
  {
    var p := amount * percent;
    var d := RoundDiv(p, 100);
    assert 0 <= p <= amount * 100 by {
      assert amount * 100 - p == amount * (100 - percent);
    }
    assert 200 * d - 100 <= 2 * p < 200 * d + 100;
  }

  /** Any type other than PERCENTAGE takes off exactly its value, which may
      exceed the subtotal: a FIXED coupon of 500 on a 100 subtotal is accepted
      with a discount of 500. */
  lemma FixedDiscountNotCapped(c: Coupon, subtotal: int, now: int)
    requires c.discountType != "PERCENTAGE"
    ensures CouponDiscount(c, subtotal) == c.discountValue
    ensures c.code == "FLAT500" && c.discountValue == 500 && Redeemable(c, 100, now)
            ==> ValidateCoupon([c], "flat500", 100, now) == CouponOk(500, c.discountType)
  {
    assert ToUpper("flat500") == "FLAT500";
  }

  /** Within a table of unique codes the lookup finds exactly the row holding
      the code. */
  lemma CouponByCodeFinds(coupons: seq<Coupon>, i: nat)
    requires UniqueCoupons(coupons) && i < |coupons|
    ensures CouponByCode(coupons, coupons[i].code) == Some(coupons[i])
  {
  }

  /** usageLimit 0 is falsy: a coupon whose limit is 0 is never rejected for
      its usage, whatever its usedCount. */
  lemma ZeroUsageLimitIsUnlimited(coupons: seq<Coupon>, i: nat, code: string, subtotal: int, now: int)
    requires UniqueCoupons(coupons) && i < |coupons|
    requires coupons[i].code == ToUpper(code) && coupons[i].usageLimit == Some(0)
    requires coupons[i].isActive && !Expired(coupons[i], now) && !BelowMinimum(coupons[i], subtotal)
    ensures ValidateCoupon(coupons, code, subtotal, now) == CouponOk(CouponDiscount(coupons[i], subtotal), coupons[i].discountType)
  {
    CouponByCodeFinds(coupons, i);
  }

  /** An accepted coupon with a truthy limit has room for one more use. */
  lemma AcceptedCouponHasRoom(coupons: seq<Coupon>, code: string, subtotal: int, now: int)
    requires ValidateCoupon(coupons, code, subtotal, now).CouponOk?
    ensures var c := CouponByCode(coupons, ToUpper(code)).value;
      c.usageLimit.Some? && c.usageLimit.value != 0 ==> c.usedCount + 1 <= c.usageLimit.value
  {
  }

  // ------------------------------------------------------------------ stock

  /** A line as validateStock reads it; `name` is what the caller passes
      (placement passes none). */
  datatype StockLine = StockLine(productId: string, quantity: int, name: Option<string>)

  const NOT_FOUND_PREFIX := "Product not found: "

  function ShortStockMsg(p: Product): string
  {
    "Insufficient stock for " + p.name + ". Max: " + IntToString(p.stock)
  }

  /** A line whose product exists with at least the requested stock. */
  predicate InStock(line: StockLine, products: map<string, Product>)
  {
    line.productId in products && products[line.productId].stock >= line.quantity
  }

  /** The complaint about one line, if any. */
  function LineStockError(line: StockLine, products: map<string, Product>): (r: Option<string>)
    ensures r.None? <==> InStock(line, products)
  {
    if line.productId !in products then
      Some(NOT_FOUND_PREFIX + (if line.name.Some? then line.name.value else line.productId))
    else if products[line.productId].stock < line.quantity then Some(ShortStockMsg(products[line.productId]))
    else None
  }

  /** The complaint about the first line that has one. */
  function FirstStockError(lines: seq<StockLine>, products: map<string, Product>): Option<string>
  {
    if lines == [] then None
    else if LineStockError(lines[0], products).Some? then LineStockError(lines[0], products)
    else FirstStockError(lines[1..], products)
  }

  /** validateStock: the lines in cart order, stopping at the first one whose
      product is missing or short. */
  method ValidateStock(lines: seq<StockLine>, products: map<string, Product>) returns (r: Option<string>)
    ensures r == FirstStockError(lines, products)
  {
    var i := 0;
    while i < |lines|
      invariant 0 <= i <= |lines|
      invariant FirstStockError(lines, products) == FirstStockError(lines[i..], products)
    {
      var line := lines[i];
      if line.productId !in products {
        return Some(NOT_FOUND_PREFIX + (if line.name.Some? then line.name.value else line.productId));
      }
      var p := products[line.productId];
      if p.stock < line.quantity {
        return Some(ShortStockMsg(p));
      }
      assert lines[i..][1..] == lines[i + 1..];
      i := i + 1;
    }
    return None;
  }

  /** The check passes exactly when every line is in stock. */
  lemma {:induction false} NoStockErrorIff(lines: seq<StockLine>, products: map<string, Product>)
    ensures FirstStockError(lines, products).None? <==> forall i :: 0 <= i < |lines| ==> InStock(lines[i], products)
  {
    if lines != [] {
      NoStockErrorIff(lines[1..], products);
      assert forall i :: 1 <= i < |lines| ==> lines[i] == lines[1..][i - 1];
    }
  }

  /** A complaint is about the first line that is not in stock. */
  lemma {:induction false} StockErrorIsFirstFailure(lines: seq<StockLine>, products: map<string, Product>)
    requires FirstStockError(lines, products).Some?
    ensures exists i :: (0 <= i < |lines| && !InStock(lines[i], products)
                         && (forall j :: 0 <= j < i ==> InStock(lines[j], products))
                         && FirstStockError(lines, products) == LineStockError(lines[i], products))
  {
    if LineStockError(lines[0], products).None? {
      StockErrorIsFirstFailure(lines[1..], products);
      var k :| 0 <= k < |lines[1..]| && !InStock(lines[1..][k], products)
        && (forall j :: 0 <= j < k ==> InStock(lines[1..][j], products))
        && FirstStockError(lines[1..], products) == LineStockError(lines[1..][k], products);
      forall j | 0 <= j < k + 1
        ensures InStock(lines[j], products)
      {
        if j > 0 { assert lines[j] == lines[1..][j - 1]; }
      }
      assert lines[k + 1] == lines[1..][k];
      assert FirstStockError(lines, products) == LineStockError(lines[k + 1], products);
    } else {
      assert !InStock(lines[0], products) && FirstStockError(lines, products) == LineStockError(lines[0], products);
    }
  }

  /** The cart passes the stock check exactly when every line's product
      exists with at least the quantity asked for. */
  lemma CartStockCheck(lines: seq<CartLine>, products: map<string, Product>)
    ensures FirstStockError(StockLines(lines), products).None? <==>
      forall i :: 0 <= i < |lines| ==>
        lines[i].productId in products && products[lines[i].productId].stock >= lines[i].quantity
  {
    NoStockErrorIff(StockLines(lines), products);
  }

  /** Stock equal to the quantity is enough. */
  lemma ExactStockPasses(p: Product, quantity: int)
    requires p.stock == quantity
    ensures FirstStockError([StockLine(p.id, quantity, None)], map[p.id := p]).None?
  {
  }

  // --------------------------------------------------------------- subtotal

  /** One element of the posted cart. */
  datatype CartLine = CartLine(productId: string, quantity: int, price: int, customInput: Option<CustomInput>)

  /** An order item before it is tied to an order. */
  datatype ItemDraft = ItemDraft(productId: string, quantity: int, price: int, customInput: CustomInput)

  /** The cart lines as the stock check receives them. */
  function StockLines(lines: seq<CartLine>): (r: seq<StockLine>)
    ensures |r| == |lines|
    ensures forall i :: 0 <= i < |lines| ==> r[i] == StockLine(lines[i].productId, lines[i].quantity, None)
  {
    seq(|lines|, i requires 0 <= i < |lines| => StockLine(lines[i].productId, lines[i].quantity, None))
  }

  /** The price charged for a line: the product's, else the one posted. */
  function UnitPrice(line: CartLine, products: map<string, Product>): int
  {
    if line.productId in products then products[line.productId].price else line.price
  }

  /** The item a line becomes; a missing customInput is stored as {}. */
  function Draft(line: CartLine, products: map<string, Product>): ItemDraft
  {
    ItemDraft(line.productId, line.quantity, UnitPrice(line, products),
              if line.customInput.Some? then line.customInput.value else [])
  }

  function Drafts(lines: seq<CartLine>, products: map<string, Product>): seq<ItemDraft>
  {
    seq(|lines|, i requires 0 <= i < |lines| => Draft(lines[i], products))
  }

  /** The running sum of price times quantity, line by line. */
  function Subtotal(lines: seq<CartLine>, products: map<string, Product>): int
  {
    if lines == [] then 0
    else Subtotal(lines[..|lines| - 1], products) + UnitPrice(lines[|lines| - 1], products) * lines[|lines| - 1].quantity
  }

  /** What the stored items add up to. */
  function ItemsTotal(items: seq<ItemDraft>): int
  {
    if items == [] then 0 else items[0].price * items[0].quantity + ItemsTotal(items[1..])
  }

  lemma {:induction false} ItemsTotalAppend(a: seq<ItemDraft>, b: seq<ItemDraft>)
    ensures ItemsTotal(a + b) == ItemsTotal(a) + ItemsTotal(b)
  {
    if a == [] {
      assert a + b == b;
    } else {
      ItemsTotalAppend(a[1..], b);
      assert (a + b)[1..] == a[1..] + b;
    }
  }

  /** The subtotal is what the snapshot prices of the stored items add up to. */
  lemma {:induction false} SubtotalIsItemsTotal(lines: seq<CartLine>, products: map<string, Product>)
    ensures Subtotal(lines, products) == ItemsTotal(Drafts(lines, products))
  {
    if lines != [] {
      var n := |lines| - 1;
      SubtotalIsItemsTotal(lines[..n], products);
      assert Drafts(lines, products) == Drafts(lines[..n], products) + [Draft(lines[n], products)];
      ItemsTotalAppend(Drafts(lines[..n], products), [Draft(lines[n], products)]);
    }
  }

  /** When every product was found, each item snapshots the product's price,
      whatever the cart posted, next to the line's product, quantity and
      custom input ({} when it has none), in cart order. */
  lemma ServerPricesSnapshot(lines: seq<CartLine>, products: map<string, Product>)
    requires forall i :: 0 <= i < |lines| ==> lines[i].productId in products
    ensures var items := Drafts(lines, products);
      |items| == |lines|
      && forall i :: 0 <= i < |lines| ==>
           && items[i].productId == lines[i].productId && items[i].quantity == lines[i].quantity
           && items[i].price == products[lines[i].productId].price
           && items[i].customInput == (if lines[i].customInput.Some? then lines[i].customInput.value else [])
  {
  }

  /** The loop of placeOrderAction that maps the cart to items and sums the
      subtotal as it goes. */
  method BuildOrderItems(lines: seq<CartLine>, products: map<string, Product>)
    returns (items: seq<ItemDraft>, subtotal: int)
    ensures items == Drafts(lines, products)
    ensures subtotal == Subtotal(lines, products)
  {
    items, subtotal := [], 0;
    var i := 0;
    while i < |lines|
      invariant 0 <= i <= |lines|
      invariant items == Drafts(lines[..i], products)
      invariant subtotal == Subtotal(lines[..i], products)
    {
      var line := lines[i];
      var price := if line.productId in products then products[line.productId].price else line.price;
      subtotal := subtotal + price * line.quantity;
      items := items + [ItemDraft(line.productId, line.quantity, price,
                                  if line.customInput.Some? then line.customInput.value else [])];
      assert lines[..i + 1][..i] == lines[..i];
      i := i + 1;
    }
    assert lines[..i] == lines;
  }

  /** The tax and the total: total = subtotal - discount + tax + shipping. */
  function Tax(subtotal: int, discount: int): int
  {
    RoundDiv((subtotal - discount) * TAX_RATE_PERCENT, 100)
  }

  /** With both rates 0 the total is the subtotal less the discount. */
  lemma TotalIsSubtotalLessDiscount(subtotal: int, discount: int)
    ensures Tax(subtotal, discount) == 0
    ensures subtotal - discount + Tax(subtotal, discount) + SHIPPING_FLAT == subtotal - discount
  {
  }

  // ---------------------------------------------------------------- address

  /** The five candidate lines of the stored address; an absent second line
      is falsy and so is an empty one. */
  function AddressParts(a: Address): seq<string>
  {
    [a.fullName, a.addressLine1, if a.addressLine2.Some? then a.addressLine2.value else "",
     a.city + ", " + a.state + " - " + a.pincode, a.phone]
  }

  /** filter(Boolean) on strings: drop the empty ones, keep the order. */
  function NonEmpty(parts: seq<string>): (r: seq<string>)
    ensures |r| <= |parts|
  {
    if parts == [] then []
    else if parts[0] == "" then NonEmpty(parts[1..])
    else [parts[0]] + NonEmpty(parts[1..])
  }

  /** The filter keeps exactly the non-empty parts: everything it returns is
      a non-empty part of the input, every non-empty part is returned, and a
      list with no empty part comes back whole. */
  lemma NonEmptyKeepsNonEmptyParts(parts: seq<string>)
    ensures forall i :: 0 <= i < |NonEmpty(parts)| ==> NonEmpty(parts)[i] != "" && NonEmpty(parts)[i] in parts
    ensures forall i :: 0 <= i < |parts| && parts[i] != "" ==> parts[i] in NonEmpty(parts)
    ensures (forall i :: 0 <= i < |parts| ==> parts[i] != "") ==> NonEmpty(parts) == parts
  {
    NonEmptyOnlyParts(parts);
    NonEmptyKeepsEach(parts);
    NonEmptyWhole(parts);
  }

  lemma {:induction false} NonEmptyOnlyParts(parts: seq<string>)
    ensures forall i :: 0 <= i < |NonEmpty(parts)| ==> NonEmpty(parts)[i] != "" && NonEmpty(parts)[i] in parts
  {
    if parts != [] {
      var t := parts[1..];
      NonEmptyOnlyParts(t);
      assert forall x :: x in t ==> x in parts;
    }
  }

  lemma {:induction false} NonEmptyKeepsEach(parts: seq<string>)
    ensures forall i :: 0 <= i < |parts| && parts[i] != "" ==> parts[i] in NonEmpty(parts)
  {
    if parts != [] {
      var t := parts[1..];
      NonEmptyKeepsEach(t);
      forall i | 0 <= i < |parts| && parts[i] != ""
        ensures parts[i] in NonEmpty(parts)
      {
        if i > 0 {
          assert parts[i] == t[i - 1];
        }
      }
    }
  }

  lemma {:induction false} NonEmptyWhole(parts: seq<string>)
    ensures (forall i :: 0 <= i < |parts| ==> parts[i] != "") ==> NonEmpty(parts) == parts
  {
    if parts != [] && forall i :: 0 <= i < |parts| ==> parts[i] != "" {
      var t := parts[1..];
      assert forall i :: 0 <= i < |t| ==> t[i] == parts[i + 1];
      NonEmptyWhole(t);
      assert [parts[0]] + t == parts;
    }
  }

  /** The filter works part by part: filtering a concatenation is filtering
      each piece, so the kept parts stay in their order. */
  lemma {:induction false} NonEmptyAppend(a: seq<string>, b: seq<string>)
    ensures NonEmpty(a + b) == NonEmpty(a) + NonEmpty(b)
  {
    if a == [] {
      assert a + b == b;
    } else {
      var h := if a[0] == "" then [] else [a[0]];
      calc {
        NonEmpty(a + b);
        { assert a + b == [a[0]] + (a[1..] + b); }
        NonEmpty([a[0]] + (a[1..] + b));
        { NonEmptyCons(a[0], a[1..] + b); }
        h + NonEmpty(a[1..] + b);
        { NonEmptyAppend(a[1..], b); }
        h + (NonEmpty(a[1..]) + NonEmpty(b));
        { SeqAssoc(h, NonEmpty(a[1..]), NonEmpty(b)); }
        (h + NonEmpty(a[1..])) + NonEmpty(b);
        { NonEmptyCons(a[0], a[1..]); assert [a[0]] + a[1..] == a; }
        NonEmpty(a) + NonEmpty(b);
      }
    }
  }

  /** One part is kept exactly when it is non-empty. */
  lemma NonEmptySingleton(x: string)
    ensures NonEmpty([x]) == if x == "" then [] else [x]
  {
  }

  /** The address text stored with the order. */
  function FormatAddress(a: Address): string
  {
    Join(NonEmpty(AddressParts(a)), "\n")
  }

  /** A valid address is stored as four lines when the second line is absent
      or empty, and as all five otherwise. */
  lemma FormattedAddressLines(a: Address)
    requires ValidAddress(a)
    ensures var cityLine := a.city + ", " + a.state + " - " + a.pincode;
      && (a.addressLine2.None? || a.addressLine2.value == ""
          ==> NonEmpty(AddressParts(a)) == [a.fullName, a.addressLine1, cityLine, a.phone])
      && (a.addressLine2.Some? && a.addressLine2.value != "" ==> NonEmpty(AddressParts(a)) == AddressParts(a))
  {
    var cityLine := a.city + ", " + a.state + " - " + a.pincode;
    assert cityLine != "" by { assert |cityLine| >= |a.city|; }
    var line2 := if a.addressLine2.Some? then a.addressLine2.value else "";
    var p4 := [a.phone];
    var p3 := [cityLine] + p4;
    var p2 := [line2] + p3;
    var p1 := [a.addressLine1] + p2;
    FiveAsCons(a.fullName, a.addressLine1, line2, cityLine, a.phone);
    FourAsCons(a.fullName, a.addressLine1, cityLine, a.phone);
    assert NonEmpty(p4) == p4 by { assert p4[1..] == []; }
    NonEmptyCons(cityLine, p4);
    NonEmptyCons(line2, p3);
    NonEmptyCons(a.addressLine1, p2);
    NonEmptyCons(a.fullName, p1);
  }

  lemma FiveAsCons<T>(x0: T, x1: T, x2: T, x3: T, x4: T)
    ensures [x0, x1, x2, x3, x4] == [x0] + ([x1] + ([x2] + ([x3] + [x4])))
  {
  }

  lemma FourAsCons<T>(x0: T, x1: T, x2: T, x3: T)
    ensures [x0, x1, x2, x3] == [x0] + ([x1] + ([x2] + [x3]))
  {
  }

  /** One step of the filter: the head is kept exactly when it is non-empty. */
  lemma NonEmptyCons(x: string, rest: seq<string>)
    ensures NonEmpty([x] + rest) == if x == "" then NonEmpty(rest) else [x] + NonEmpty(rest)
  {
    assert ([x] + rest)[1..] == rest;
  }
}
