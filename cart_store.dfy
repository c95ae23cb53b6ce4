/** The client-side cart (src/store/cart-store.ts): a list of items, one per
    product, and whether the cart panel is open. Every action replaces the
    list (and only the fields it names) with a new value; the new values are
    the functions below, and the `Cart` class applies them in place. */
module CartStore {
  import opened Wrappers
  import opened Schema

  /** CartItem: a line of the cart, with the stock it may not exceed. */
  datatype CartItem = CartItem(
    productId: string,
    name: string,
    price: int,
    quantity: int,
    image: Option<string>,
    customInput: Option<CustomInput>,
    maxStock: int)

  /** What addItem receives: a cart item whose quantity may be absent. */
  datatype NewItem = NewItem(
    productId: string,
    name: string,
    price: int,
    quantity: Option<int>,
    image: Option<string>,
    customInput: Option<CustomInput>,
    maxStock: int)

  function Min(a: int, b: int): int { if a <= b then a else b }

  /** No two items share a product. */
  predicate DistinctProducts(items: seq<CartItem>)
  {
    forall i, j :: 0 <= i < j < |items| ==> items[i].productId != items[j].productId
  }

  /** Array.prototype.find on the product id, as the index found. */
  function FindIndex(items: seq<CartItem>, productId: string): (r: Option<nat>)
    ensures r.Some? ==> r.value < |items| && items[r.value].productId == productId
    ensures r.Some? ==> forall j :: 0 <= j < r.value ==> items[j].productId != productId
    ensures r.None? ==> forall j :: 0 <= j < |items| ==> items[j].productId != productId
  {
    if items == [] then None
    else if items[0].productId == productId then Some(0)
    else match FindIndex(items[1..], productId)
      case None => None
      case Some(k) => Some(k + 1)
  }

  /** In a cart of distinct products the search finds the product's one
      entry. */
  lemma FindIndexOfDistinct(items: seq<CartItem>, k: nat)
    requires DistinctProducts(items) && k < |items|
    ensures FindIndex(items, items[k].productId) == Some(k)
  {
    var f := FindIndex(items, items[k].productId);
    assert f.Some?;
  }

  // ---------------------------------------------------------------- addItem

  /** `item.quantity ?? 1` */
  function RequestedQuantity(item: NewItem): int
  {
    if item.quantity.Some? then item.quantity.value else 1
  }

  /** The entry an added product starts with. */
  function FromNew(item: NewItem, qty: int): CartItem
  {
    CartItem(item.productId, item.name, item.price, qty, item.image, item.customInput, item.maxStock)
  }

  /** The existing entry after another add: the summed quantity capped by the
      new item's maxStock, and the new custom input unless it is absent. */
  function Merged(existing: CartItem, item: NewItem): CartItem
  {
    existing.(quantity := Min(existing.quantity + RequestedQuantity(item), item.maxStock),
              customInput := if item.customInput.Some? then item.customInput else existing.customInput)
  }

  /** The items after addItem. */
  function Added(items: seq<CartItem>, item: NewItem): seq<CartItem>
  {
    match FindIndex(items, item.productId)
    case Some(k) =>
      var merged := Merged(items[k], item);
      if merged.quantity <= 0 then items
      else seq(|items|, i requires 0 <= i < |items| => if items[i].productId == item.productId then merged else items[i])
    case None =>
      var qty := RequestedQuantity(item);
      if qty <= 0 || qty > item.maxStock then items else items + [FromNew(item, qty)]
  }

  /** Adding a product already in the cart updates its one entry in place:
      the position, the other entries and the entry's name, price, image and
      maxStock are kept; a sum that is not positive leaves the cart as it was. */
  lemma AddExisting(items: seq<CartItem>, item: NewItem, k: nat)
    requires DistinctProducts(items) && k < |items| && items[k].productId == item.productId
    ensures var newQty := Min(items[k].quantity + RequestedQuantity(item), item.maxStock);
      && (newQty <= 0 ==> Added(items, item) == items)
      && (newQty > 0 ==> Added(items, item) == items[k := Merged(items[k], item)])
      && Merged(items[k], item).quantity == newQty && newQty <= item.maxStock
      && Merged(items[k], item).(quantity := items[k].quantity, customInput := items[k].customInput) == items[k]
  {
    FindIndexOfDistinct(items, k);
    var merged := Merged(items[k], item);
    if merged.quantity > 0 {
      var r := seq(|items|, i requires 0 <= i < |items| => if items[i].productId == item.productId then merged else items[i]);
      forall i | 0 <= i < |items|
        ensures r[i] == items[k := merged][i]
      {
        if i != k {
          if i < k { assert items[i].productId != items[k].productId; }
          else { assert items[k].productId != items[i].productId; }
        }
      }
    }
  }

  /** A product not yet in the cart is appended at the end exactly when
      0 < quantity <= maxStock; otherwise the cart is unchanged. */
  lemma AddNew(items: seq<CartItem>, item: NewItem)
    requires forall j :: 0 <= j < |items| ==> items[j].productId != item.productId
    ensures var qty := RequestedQuantity(item);
      && (0 < qty <= item.maxStock ==> Added(items, item) == items + [FromNew(item, qty)])
      && (!(0 < qty <= item.maxStock) ==> Added(items, item) == items)
  {
  }

  /** Adding never creates a second entry for a product. */
  lemma {:induction false} AddedKeepsDistinct(items: seq<CartItem>, item: NewItem)
    requires DistinctProducts(items)
    ensures DistinctProducts(Added(items, item))
  {
    var f := FindIndex(items, item.productId);
    if f.Some? {
      AddExisting(items, item, f.value);
      SameProductsKeepDistinct(items, items[f.value := Merged(items[f.value], item)]);
    } else {
      var r := Added(items, item);
      if r != items {
        assert r == items + [FromNew(item, RequestedQuantity(item))];
        forall i, j | 0 <= i < j < |r|
          ensures r[i].productId != r[j].productId
        {
          if j == |items| { assert r[i] == items[i]; } else { assert r[i] == items[i] && r[j] == items[j]; }
        }
      }
    }
  }

  /** A list with the same product in every position keeps products
      distinct. */
  lemma SameProductsKeepDistinct(a: seq<CartItem>, b: seq<CartItem>)
    requires DistinctProducts(a) && |a| == |b|
    requires forall i :: 0 <= i < |a| ==> a[i].productId == b[i].productId
    ensures DistinctProducts(b)
  {
    forall i, j | 0 <= i < j < |b|
      ensures b[i].productId != b[j].productId
    {
      assert a[i].productId != a[j].productId;
    }
  }

  // ------------------------------------------------------------- removeItem

  /** filter: the items of the other products, in order. */
  function Without(items: seq<CartItem>, productId: string): (r: seq<CartItem>)
    ensures |r| <= |items|
  {
    if items == [] then []
    else (if items[0].productId == productId then [] else [items[0]]) + Without(items[1..], productId)
  }

  /** Removing keeps exactly the items of other products. */
  lemma {:induction false} WithoutContents(items: seq<CartItem>, productId: string)
    ensures forall it :: it in Without(items, productId) <==> it in items && it.productId != productId
  {
    if items != [] {
      WithoutContents(items[1..], productId);
      assert items == [items[0]] + items[1..];
    }
  }

  /** Removing a product that is not in the cart changes nothing. */
  lemma {:induction false} WithoutAbsent(items: seq<CartItem>, productId: string)
    requires forall j :: 0 <= j < |items| ==> items[j].productId != productId
    ensures Without(items, productId) == items
  {
    if items != [] {
      WithoutAbsent(items[1..], productId);
    }
  }

  /** In a cart of distinct products, removing one takes out its entry and
      leaves the rest in their order. */
  lemma {:induction false} WithoutAt(items: seq<CartItem>, k: nat)
    requires DistinctProducts(items) && k < |items|
    ensures Without(items, items[k].productId) == items[..k] + items[k + 1..]
  {
    if k == 0 {
      WithoutHead(items);
    } else {
      var id := items[k].productId;
      var tail := items[1..];
      DistinctTail(items);
      assert items[0].productId != id;
      assert tail[k - 1] == items[k];
      WithoutAt(tail, k - 1);
      assert Without(items, id) == [items[0]] + Without(tail, id);
      assert items[..k] == [items[0]] + tail[..k - 1];
      assert items[k + 1..] == tail[k..];
    }
  }

  /** Removing the first product of a cart of distinct products leaves the
      rest. */
  lemma WithoutHead(items: seq<CartItem>)
    requires DistinctProducts(items) && items != []
    ensures Without(items, items[0].productId) == items[1..]
  {
    var tail := items[1..];
    forall j | 0 <= j < |tail| ensures tail[j].productId != items[0].productId { assert tail[j] == items[j + 1]; }
    WithoutAbsent(tail, items[0].productId);
  }

  lemma DistinctTail(items: seq<CartItem>)
    requires DistinctProducts(items) && items != []
    ensures DistinctProducts(items[1..])
  {
    var tail := items[1..];
    forall i, j | 0 <= i < j < |tail| ensures tail[i].productId != tail[j].productId {
      assert tail[i] == items[i + 1] && tail[j] == items[j + 1];
    }
  }

  /** Removing keeps products distinct. */
  lemma {:induction false} WithoutKeepsDistinct(items: seq<CartItem>, productId: string)
    requires DistinctProducts(items)
    ensures DistinctProducts(Without(items, productId))
  {
    var f := FindIndex(items, productId);
    if f.Some? {
      WithoutAt(items, f.value);
    } else {
      WithoutAbsent(items, productId);
    }
  }

  // --------------------------------------------------------- updateQuantity

  /** The items after updateQuantity: a quantity that is not positive removes
      the product; otherwise its entry gets the quantity capped by its own
      maxStock. */
  function QuantityUpdated(items: seq<CartItem>, productId: string, quantity: int): seq<CartItem>
  {
    if quantity <= 0 then
      Without(items, productId)
    else
      seq(|items|, i requires 0 <= i < |items| =>
        (if items[i].productId != productId then items[i]
         else items[i].(quantity := Min(quantity, items[i].maxStock))))
  }

  /** updateQuantity(p, q) with q <= 0 is removeItem(p); otherwise only p's
      quantity changes, to min(q, maxStock), and every position is kept. */
  lemma UpdateQuantityCases(items: seq<CartItem>, productId: string, quantity: int)
    ensures quantity <= 0 ==> QuantityUpdated(items, productId, quantity) == Without(items, productId)
    ensures quantity > 0 ==>
      var r := QuantityUpdated(items, productId, quantity);
      && |r| == |items|
      && (forall i :: 0 <= i < |r| && items[i].productId != productId ==> r[i] == items[i])
      && (forall i :: 0 <= i < |r| && items[i].productId == productId ==>
            r[i].quantity == Min(quantity, items[i].maxStock) && r[i].quantity <= items[i].maxStock
            && r[i].(quantity := items[i].quantity) == items[i])
  {
  }

  lemma UpdateQuantityKeepsDistinct(items: seq<CartItem>, productId: string, quantity: int)
    requires DistinctProducts(items)
    ensures DistinctProducts(QuantityUpdated(items, productId, quantity))
  {
    if quantity <= 0 {
      WithoutKeepsDistinct(items, productId);
    } else {
      SameProductsKeepDistinct(items, QuantityUpdated(items, productId, quantity));
    }
  }

  // --------------------------------------------------------- setCustomInput

  /** The items after setCustomInput: the product's entry takes the custom
      input given (an absent one clears it). */
  function CustomInputSet(items: seq<CartItem>, productId: string, customInput: Option<CustomInput>): seq<CartItem>
  {
    seq(|items|, i requires 0 <= i < |items| =>
      if items[i].productId == productId then items[i].(customInput := customInput) else items[i])
  }

  /** Only the customInput of the matching entry changes. */
  lemma CustomInputSetChangesOnlyThat(items: seq<CartItem>, productId: string, customInput: Option<CustomInput>)
    ensures var r := CustomInputSet(items, productId, customInput);
      && |r| == |items|
      && (forall i :: 0 <= i < |r| && items[i].productId != productId ==> r[i] == items[i])
      && (forall i :: 0 <= i < |r| && items[i].productId == productId ==>
            r[i].customInput == customInput && r[i].(customInput := items[i].customInput) == items[i])
    ensures DistinctProducts(items) ==> DistinctProducts(CustomInputSet(items, productId, customInput))
  {
    var r := CustomInputSet(items, productId, customInput);
    if DistinctProducts(items) {
      SameProductsKeepDistinct(items, r);
    }
  }

  // ------------------------------------------------------------------ store

  /** The store's state. Each action sets only the fields it names. */
  class Cart {
    var items: seq<CartItem>
    var isCartOpen: bool

    ghost predicate Valid()
      reads this
    {
      DistinctProducts(items)
    }

    /** The initial state: empty and closed. */
    constructor ()
      ensures Valid() && items == [] && !isCartOpen
    {
      items := [];
      isCartOpen := false;
    }

    method AddItem(item: NewItem)
      requires Valid()
      modifies this
      ensures Valid()
      ensures items == Added(old(items), item) && isCartOpen == old(isCartOpen)
    {
      AddedKeepsDistinct(items, item);
      var existing := FindIndex(items, item.productId);
      var qty := RequestedQuantity(item);
      if existing.Some? {
        var merged := Merged(items[existing.value], item);
        if merged.quantity <= 0 {
          return;
        }
        var before := items;
        items := seq(|before|, i requires 0 <= i < |before| =>
          if before[i].productId == item.productId then merged else before[i]);
        return;
      }
      if qty <= 0 || qty > item.maxStock {
        return;
      }
      items := items + [FromNew(item, qty)];
    }

    method RemoveItem(productId: string)
      requires Valid()
      modifies this
      ensures Valid()
      ensures items == Without(old(items), productId) && isCartOpen == old(isCartOpen)
    {
      WithoutKeepsDistinct(items, productId);
      items := Without(items, productId);
    }

    method UpdateQuantity(productId: string, quantity: int)
      requires Valid()
      modifies this
      ensures Valid()
      ensures items == QuantityUpdated(old(items), productId, quantity) && isCartOpen == old(isCartOpen)
    {
      UpdateQuantityKeepsDistinct(items, productId, quantity);
      if quantity <= 0 {
        items := Without(items, productId);
        return;
      }
      var before := items;
      items := seq(|before|, i requires 0 <= i < |before| =>
        (if before[i].productId != productId then before[i]
         else before[i].(quantity := Min(quantity, before[i].maxStock))));
    }

    method SetCustomInput(productId: string, customInput: Option<CustomInput>)
      requires Valid()
      modifies this
      ensures Valid()
      ensures items == CustomInputSet(old(items), productId, customInput) && isCartOpen == old(isCartOpen)
    {
      CustomInputSetChangesOnlyThat(items, productId, customInput);
      items := CustomInputSet(items, productId, customInput);
    }

    method OpenCart()
      requires Valid()
      modifies this
      ensures Valid() && isCartOpen && items == old(items)
    {
      isCartOpen := true;
    }

    method CloseCart()
      requires Valid()
      modifies this
      ensures Valid() && !isCartOpen && items == old(items)
    {
      isCartOpen := false;
    }

    method ClearCart()
      requires Valid()
      modifies this
      ensures Valid() && items == [] && !isCartOpen
    {
      items := [];
      isCartOpen := false;
    }
  }
}
