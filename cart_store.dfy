/**
 * The shopping-cart store: the list of items in the cart, each a product with a
 * quantity, and whether the cart panel is open. The actions replace the item list
 * with a new one built by `map` / `filter` / append; the totals are `reduce` sums.
 * Prices and quantities are integers here.
 */
module Cart {

  datatype Product = Product(id: int, name: string, price: int, image: string, description: string)

  /** `{...product, quantity}`: the product's fields as they were when it was first added. */
  datatype CartItem = CartItem(product: Product, quantity: int)

  // ----- queries on an item list -----

  predicate HasId(items: seq<CartItem>, id: int) {
    exists i :: 0 <= i < |items| && items[i].product.id == id
  }

  /** How many items carry `id` (at most one in a cart that keeps its invariant). */
  function CountId(items: seq<CartItem>, id: int): (n: nat)
    ensures n == 0 <==> !HasId(items, id)
    decreases |items|
  {
    if items == [] then 0
    else
      var rest := CountId(items[..|items| - 1], id);
      assert forall i :: 0 <= i < |items| - 1 ==> items[..|items| - 1][i] == items[i];
      rest + (if items[|items| - 1].product.id == id then 1 else 0)
  }

  /** Item ids are pairwise distinct and every quantity is at least 1. */
  predicate CartInvariant(items: seq<CartItem>) {
    && (forall i, j :: 0 <= i < j < |items| ==> items[i].product.id != items[j].product.id)
    && (forall i :: 0 <= i < |items| ==> items[i].quantity >= 1)
  }

  // ----- the sums of getTotalItems and getTotalPrice -----

  /** `items.reduce((total, item) => total + item.quantity, 0)`. */
  function TotalItems(items: seq<CartItem>): (n: int)
    ensures (forall i :: 0 <= i < |items| ==> items[i].quantity >= 1) ==> n >= |items|
    decreases |items|
  {
    if items == [] then 0 else TotalItems(items[..|items| - 1]) + items[|items| - 1].quantity
  }

  /** `items.reduce((total, item) => total + item.price * item.quantity, 0)`. */
  function TotalPrice(items: seq<CartItem>): (n: int)
    ensures (forall i :: 0 <= i < |items| ==> items[i].product.price >= 0 && items[i].quantity >= 0) ==> n >= 0
    decreases |items|
  {
    if items == [] then 0
    else
      var last := items[|items| - 1];
      TotalPrice(items[..|items| - 1]) + last.product.price * last.quantity
  }

  /** The sum of the quantities of the items that carry `id`. */
  function QuantityOf(items: seq<CartItem>, id: int): (n: int)
    ensures !HasId(items, id) ==> n == 0
    decreases |items|
  {
    if items == [] then 0
    else
      var last := items[|items| - 1];
      assert forall i :: 0 <= i < |items| - 1 ==> items[..|items| - 1][i] == items[i];
      QuantityOf(items[..|items| - 1], id) + (if last.product.id == id then last.quantity else 0)
  }

  /** The sum of the prices of the items that carry `id` (one price per item, not per unit). */
  function UnitPriceOf(items: seq<CartItem>, id: int): int
    decreases |items|
  {
    if items == [] then 0
    else
      var last := items[|items| - 1];
      UnitPriceOf(items[..|items| - 1], id) + (if last.product.id == id then last.product.price else 0)
  }

  /** The price of the items that carry `id`, quantities included. */
  function PriceOf(items: seq<CartItem>, id: int): int
    decreases |items|
  {
    if items == [] then 0
    else
      var last := items[|items| - 1];
      PriceOf(items[..|items| - 1], id) + (if last.product.id == id then last.product.price * last.quantity else 0)
  }

  lemma {:induction false} TotalItemsAppend(a: seq<CartItem>, b: seq<CartItem>)
    ensures TotalItems(a + b) == TotalItems(a) + TotalItems(b)
    decreases |b|
  {
    if b == [] {
      assert a + b == a;
    } else {
      var init := b[..|b| - 1];
      assert (a + b)[..|a + b| - 1] == a + init;
      assert (a + b)[|a + b| - 1] == b[|b| - 1];
      TotalItemsAppend(a, init);
    }
  }

  lemma {:induction false} TotalPriceAppend(a: seq<CartItem>, b: seq<CartItem>)
    ensures TotalPrice(a + b) == TotalPrice(a) + TotalPrice(b)
    decreases |b|
  {
    if b == [] {
      assert a + b == a;
    } else {
      var init := b[..|b| - 1];
      assert (a + b)[..|a + b| - 1] == a + init;
      assert (a + b)[|a + b| - 1] == b[|b| - 1];
      TotalPriceAppend(a, init);
    }
  }

  // ----- the list transformations of the actions -----

  /** The `map` of `addItem`: every item with `id` gets one more unit. */
  function Incremented(items: seq<CartItem>, id: int): (r: seq<CartItem>)
  {
    seq(|items|, i requires 0 <= i < |items| =>
      if items[i].product.id == id then items[i].(quantity := items[i].quantity + 1) else items[i])
  }

  /** `addItem(product)`: one more unit of an item already there, else a new item at the end. */
  function Added(items: seq<CartItem>, product: Product): (r: seq<CartItem>)
    ensures !HasId(items, product.id) ==> r == items + [CartItem(product, 1)]
    ensures HasId(items, product.id) ==>
              |r| == |items|
              && forall i :: 0 <= i < |items| ==>
                   r[i].product == items[i].product
                   && r[i].quantity == items[i].quantity + (if items[i].product.id == product.id then 1 else 0)
    ensures HasId(r, product.id)
  {
    if HasId(items, product.id) then
      Incremented(items, product.id)
    else
      var r := items + [CartItem(product, 1)];
      assert r[|items|].product.id == product.id;
      r
  }

  /** The `filter` of `removeItem`: drop every item with `id`, keep the others in order. */
  function Removed(items: seq<CartItem>, id: int): (r: seq<CartItem>)
    ensures forall x :: x in r <==> x in items && x.product.id != id
    ensures !HasId(r, id)
    ensures |r| == |items| - CountId(items, id)
    decreases |items|
  {
    if items == [] then []
    else
      var rest := Removed(items[..|items| - 1], id);
      var last := items[|items| - 1];
      assert items == items[..|items| - 1] + [last];
      if last.product.id == id then rest else rest + [last]
  }

  /** The `map` of `updateQuantity` with a positive quantity. */
  function WithQuantity(items: seq<CartItem>, id: int, quantity: int): (r: seq<CartItem>)
  {
    seq(|items|, i requires 0 <= i < |items| =>
      if items[i].product.id == id then items[i].(quantity := quantity) else items[i])
  }

  /** `updateQuantity(id, quantity)`: a quantity of zero or less removes the item. */
  function QuantityUpdated(items: seq<CartItem>, id: int, quantity: int): (r: seq<CartItem>)
    ensures quantity <= 0 ==> r == Removed(items, id)
    // a positive quantity: same products in the same order, only the quantity of `id` changes
    ensures quantity > 0 ==>
              |r| == |items|
              && forall i :: 0 <= i < |items| ==>
                   r[i].product == items[i].product
                   && r[i].quantity == (if items[i].product.id == id then quantity else items[i].quantity)
  {
    if quantity <= 0 then Removed(items, id) else WithQuantity(items, id, quantity)
  }

  // ----- what the actions do to the totals -----

  lemma {:induction false} IncrementedTotals(items: seq<CartItem>, id: int)
    ensures TotalItems(Incremented(items, id)) == TotalItems(items) + CountId(items, id)
    ensures TotalPrice(Incremented(items, id)) == TotalPrice(items) + UnitPriceOf(items, id)
    decreases |items|
  {
    if items != [] {
      var init := items[..|items| - 1];
      var last := items[|items| - 1];
      var inc := Incremented(items, id);
      assert inc[..|items| - 1] == Incremented(init, id);
      IncrementedTotals(init, id);
      if last.product.id == id {
        assert inc[|items| - 1] == last.(quantity := last.quantity + 1);
        assert last.product.price * (last.quantity + 1) == last.product.price * last.quantity + last.product.price;
      } else {
        assert inc[|items| - 1] == last;
      }
    }
  }

  /** Adding a product already in a consistent cart adds one unit and its stored price. */
  lemma AddExistingTotals(items: seq<CartItem>, product: Product, k: nat)
    requires CartInvariant(items)
    requires k < |items| && items[k].product.id == product.id
    ensures TotalItems(Added(items, product)) == TotalItems(items) + 1
    ensures TotalPrice(Added(items, product)) == TotalPrice(items) + items[k].product.price
  {
    IncrementedTotals(items, product.id);
    SoleItem(items, product.id, k);
    SoleItemPrice(items, product.id, k);
  }

  /** Adding a new product adds one unit at the product's price. */
  lemma AddNewTotals(items: seq<CartItem>, product: Product)
    requires !HasId(items, product.id)
    ensures TotalItems(Added(items, product)) == TotalItems(items) + 1
    ensures TotalPrice(Added(items, product)) == TotalPrice(items) + product.price
  {
    TotalItemsAppend(items, [CartItem(product, 1)]);
    TotalPriceAppend(items, [CartItem(product, 1)]);
  }

  /** In a consistent cart the per-id sums are those of the one item that carries the id. */
  lemma {:induction false} SoleItem(items: seq<CartItem>, id: int, k: nat)
    requires CartInvariant(items)
    requires k < |items| && items[k].product.id == id
    ensures CountId(items, id) == 1
    ensures QuantityOf(items, id) == items[k].quantity
    decreases |items|
  {
    var init := items[..|items| - 1];
    if k == |items| - 1 {
      assert !HasId(init, id);
    } else {
      SoleItem(init, id, k);
    }
  }

  lemma {:induction false} SoleItemPrice(items: seq<CartItem>, id: int, k: nat)
    requires CartInvariant(items)
    requires k < |items| && items[k].product.id == id
    ensures UnitPriceOf(items, id) == items[k].product.price
    ensures PriceOf(items, id) == items[k].product.price * items[k].quantity
    decreases |items|
  {
    var init := items[..|items| - 1];
    if k == |items| - 1 {
      assert !HasId(init, id);
      NoIdSums(init, id);
    } else {
      SoleItemPrice(init, id, k);
    }
  }

  lemma {:induction false} NoIdSums(items: seq<CartItem>, id: int)
    requires !HasId(items, id)
    ensures UnitPriceOf(items, id) == 0 && PriceOf(items, id) == 0
    decreases |items|
  {
    if items != [] {
      var init := items[..|items| - 1];
      assert !HasId(init, id) by {
        assert forall i :: 0 <= i < |init| ==> init[i] == items[i];
      }
      NoIdSums(init, id);
    }
  }

  lemma {:induction false} RemovedTotals(items: seq<CartItem>, id: int)
    ensures TotalItems(Removed(items, id)) == TotalItems(items) - QuantityOf(items, id)
    ensures TotalPrice(Removed(items, id)) == TotalPrice(items) - PriceOf(items, id)
    decreases |items|
  {
    if items != [] {
      var init := items[..|items| - 1];
      var last := items[|items| - 1];
      RemovedTotals(init, id);
      if last.product.id != id {
        TotalItemsAppend(Removed(init, id), [last]);
        TotalPriceAppend(Removed(init, id), [last]);
      }
    }
  }

  /** Removing an absent id changes nothing. */
  lemma {:induction false} RemoveAbsentIsNoOp(items: seq<CartItem>, id: int)
    requires !HasId(items, id)
    ensures Removed(items, id) == items
    decreases |items|
  {
    if items != [] {
      var init := items[..|items| - 1];
      assert !HasId(init, id) by {
        assert forall i :: 0 <= i < |init| ==> init[i] == items[i];
      }
      RemoveAbsentIsNoOp(init, id);
      assert items == init + [items[|items| - 1]];
    }
  }

  lemma {:induction false} WithQuantityTotalItems(items: seq<CartItem>, id: int, quantity: int)
    ensures TotalItems(WithQuantity(items, id, quantity))
         == TotalItems(items) - QuantityOf(items, id) + QuantityOf(WithQuantity(items, id, quantity), id)
    decreases |items|
  {
    if items != [] {
      var init := items[..|items| - 1];
      var upd := WithQuantity(items, id, quantity);
      assert upd[..|items| - 1] == WithQuantity(init, id, quantity);
      WithQuantityTotalItems(init, id, quantity);
    }
  }

  /** Setting a positive quantity on an item of a consistent cart replaces its quantity in the total. */
  lemma UpdateQuantityTotal(items: seq<CartItem>, k: nat, quantity: int)
    requires CartInvariant(items) && k < |items| && quantity > 0
    ensures TotalItems(QuantityUpdated(items, items[k].product.id, quantity))
         == TotalItems(items) - items[k].quantity + quantity
  {
    var id := items[k].product.id;
    var upd := WithQuantity(items, id, quantity);
    WithQuantityTotalItems(items, id, quantity);
    SoleItem(items, id, k);
    QuantityUpdatedKeepsInvariant(items, id, quantity);
    assert upd[k].product.id == id && upd[k].quantity == quantity;
    SoleItem(upd, id, k);
  }

  /** Setting a quantity never inserts: an id not in the cart leaves the list as it is. */
  lemma UpdateAbsentIsNoOp(items: seq<CartItem>, id: int, quantity: int)
    requires !HasId(items, id)
    ensures QuantityUpdated(items, id, quantity) == items
  {
    if quantity <= 0 {
      RemoveAbsentIsNoOp(items, id);
    } else {
      assert WithQuantity(items, id, quantity) == items;
    }
  }

  // ----- the invariant is kept by every action -----

  lemma AddedKeepsInvariant(items: seq<CartItem>, product: Product)
    requires CartInvariant(items)
    ensures CartInvariant(Added(items, product))
  {
  }

  lemma {:induction false} RemovedKeepsInvariant(items: seq<CartItem>, id: int)
    requires CartInvariant(items)
    ensures CartInvariant(Removed(items, id))
    decreases |items|
  {
    if items != [] {
      var init := items[..|items| - 1];
      var last := items[|items| - 1];
      assert CartInvariant(init);
      RemovedKeepsInvariant(init, id);
      var rest := Removed(init, id);
      forall x | x in rest ensures x.product.id != last.product.id && x.quantity >= 1 {
        var k :| 0 <= k < |init| && init[k] == x;
        assert items[k] == x;
      }
      if last.product.id != id {
        var r := rest + [last];
        forall i, j | 0 <= i < j < |r| ensures r[i].product.id != r[j].product.id {
          assert r[i] == rest[i];
          if j == |rest| {
            assert rest[i] in rest;
          } else {
            assert r[j] == rest[j];
          }
        }
        assert items[|items| - 1] == last;
      }
    }
  }

  /** The filter keeps the order: filtering a concatenation filters each part. */
  lemma {:induction false} RemovedAppend(a: seq<CartItem>, b: seq<CartItem>, id: int)
    ensures Removed(a + b, id) == Removed(a, id) + Removed(b, id)
    decreases |b|
  {
    if b == [] {
      assert a + b == a;
    } else {
      var init := b[..|b| - 1];
      assert (a + b)[..|a + b| - 1] == a + init;
      assert (a + b)[|a + b| - 1] == b[|b| - 1];
      RemovedAppend(a, init, id);
    }
  }

  lemma QuantityUpdatedKeepsInvariant(items: seq<CartItem>, id: int, quantity: int)
    requires CartInvariant(items)
    ensures CartInvariant(QuantityUpdated(items, id, quantity))
  {
    if quantity <= 0 {
      RemovedKeepsInvariant(items, id);
    }
  }

  // ----- the store -----

  class CartStore {
    var items: seq<CartItem>
    var isOpen: bool

    /** A new store: an empty, closed cart. */
    constructor ()
      ensures items == [] && !isOpen
    {
      items := [];
      isOpen := false;
    }

    method AddItem(product: Product)
      modifies this
      ensures items == Added(old(items), product) && isOpen == old(isOpen)
      ensures CartInvariant(old(items)) ==> CartInvariant(items)
    {
      if CartInvariant(items) {
        AddedKeepsInvariant(items, product);
      }
      items := Added(items, product);
    }

    method RemoveItem(productId: int)
      modifies this
      ensures items == Removed(old(items), productId) && isOpen == old(isOpen)
      ensures CartInvariant(old(items)) ==> CartInvariant(items)
    {
      if CartInvariant(items) {
        RemovedKeepsInvariant(items, productId);
      }
      items := Removed(items, productId);
    }

    method UpdateQuantity(productId: int, quantity: int)
      modifies this
      ensures items == QuantityUpdated(old(items), productId, quantity) && isOpen == old(isOpen)
      ensures CartInvariant(old(items)) ==> CartInvariant(items)
    {
      if quantity <= 0 {
        RemoveItem(productId);
        return;
      }
      if CartInvariant(items) {
        QuantityUpdatedKeepsInvariant(items, productId, quantity);
      }
      items := WithQuantity(items, productId, quantity);
    }

    method ClearCart()
      modifies this
      ensures items == [] && isOpen == old(isOpen)
    {
      items := [];
    }

    method ToggleCart()
      modifies this
      ensures isOpen == !old(isOpen) && items == old(items)
    {
      isOpen := !isOpen;
    }

    method OpenCart()
      modifies this
      ensures isOpen && items == old(items)
    {
      isOpen := true;
    }

    method CloseCart()
      modifies this
      ensures !isOpen && items == old(items)
    {
      isOpen := false;
    }

    function GetTotalItems(): (n: int)
      reads this
      ensures items == [] ==> n == 0
      ensures CartInvariant(items) ==> n >= |items|
    {
      TotalItems(items)
    }

    function GetTotalPrice(): (n: int)
      reads this
      ensures items == [] ==> n == 0
    {
      TotalPrice(items)
    }
  }

  /** Adding twice merges, adding another product appends; the totals follow. */
  method ScenarioAddAndTotals(p1: Product, p2: Product)
    requires p1.id != p2.id && p1.price == 100 && p2.price == 200
  {
    var cart := new CartStore();
    assert cart.GetTotalItems() == 0 && cart.GetTotalPrice() == 0 && !cart.isOpen;
    cart.AddItem(p1);
    assert cart.items == [CartItem(p1, 1)];
    assert HasId(cart.items, p1.id) by { assert cart.items[0].product.id == p1.id; }
    cart.AddItem(p1);
    assert |cart.items| == 1 && cart.items[0] == CartItem(p1, 2);
    assert cart.items == [CartItem(p1, 2)];
    assert !HasId(cart.items, p2.id);
    cart.AddItem(p2);
    assert cart.items == [CartItem(p1, 2)] + [CartItem(p2, 1)];
    TotalItemsAppend([CartItem(p1, 2)], [CartItem(p2, 1)]);
    TotalPriceAppend([CartItem(p1, 2)], [CartItem(p2, 1)]);
    assert cart.GetTotalItems() == 3;
    assert cart.GetTotalPrice() == 400;
  }

  /** A positive quantity replaces the old one; zero removes the item. */
  method ScenarioUpdateAndRemove(p1: Product)
  {
    var cart := new CartStore();
    cart.AddItem(p1);
    assert cart.items == [CartItem(p1, 1)];
    cart.UpdateQuantity(p1.id, 5);
    assert |cart.items| == 1 && cart.items[0] == CartItem(p1, 5);
    assert cart.items == [CartItem(p1, 5)];
    assert TotalItems([CartItem(p1, 5)]) == 5 by {
      assert [CartItem(p1, 5)][..0] == [];
    }
    assert cart.GetTotalItems() == 5;
    cart.UpdateQuantity(p1.id, 0);
    assert cart.items == [];
    cart.AddItem(p1);
    cart.RemoveItem(p1.id);
    assert cart.items == [];
  }

  /** Toggling twice restores the panel; clearing keeps it open. */
  method ScenarioPanel(p1: Product)
  {
    var cart := new CartStore();
    cart.ToggleCart();
    assert cart.isOpen;
    cart.ToggleCart();
    assert !cart.isOpen;
    cart.OpenCart();
    cart.AddItem(p1);
    cart.ClearCart();
    assert cart.isOpen && cart.items == [];
    cart.CloseCart();
    assert !cart.isOpen;
  }
}
