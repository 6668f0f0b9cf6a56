/**
 * The point-of-sale cart: menu items are appended one by one, the bill is the
 * running sum of their prices, and paying sends a non-empty cart to the kitchen.
 * Prices are whole kronor.
 */
module Pos {
  import opened ArrayOps

  datatype Category = Starter | MainCourse | Dessert | Drink

  datatype MenuItem = MenuItem(
    id: string,
    name: string,
    category: Category,
    price: int,
    description: string,
    available: bool)

  type Cart = seq<MenuItem>

  /** Clicking a menu card appends it to the cart. */
  function AddToCart(cart: Cart, item: MenuItem): (r: Cart)
    ensures |r| == |cart| + 1 && r[..|cart|] == cart && r[|cart|] == item
  {
    cart + [item]
  }

  /** The bill: prices summed from the first item to the last, starting at 0. */
  function Total(cart: Cart): (r: int)
    ensures (forall i :: 0 <= i < |cart| ==> cart[i].price >= 0) ==> r >= 0
  {
    if |cart| == 0 then 0 else Total(cart[..|cart| - 1]) + cart[|cart| - 1].price
  }

  /** Adding an item raises the bill by exactly its price. */
  lemma TotalAfterAdd(cart: Cart, item: MenuItem)
    ensures Total(AddToCart(cart, item)) == Total(cart) + item.price
  {
  }

  /** The bill of two carts put together is the sum of their bills. */
  lemma {:induction false} TotalConcat(a: Cart, b: Cart)
    ensures Total(a + b) == Total(a) + Total(b)
  {
    if |b| > 0 {
      var init, last := b[..|b| - 1], b[|b| - 1];
      assert (a + b)[..|a + b| - 1] == a + init;
      assert Total(a + b) == Total(a + init) + last.price;
      TotalConcat(a, init);
    } else {
      assert a + b == a;
    }
  }

  /** With no negative price the bill is never negative, and it bounds each price. */
  lemma {:induction false} TotalBoundsPrices(cart: Cart)
    requires forall i :: 0 <= i < |cart| ==> cart[i].price >= 0
    ensures Total(cart) >= 0
    ensures forall i :: 0 <= i < |cart| ==> cart[i].price <= Total(cart)
  {
    if |cart| > 0 {
      TotalBoundsPrices(cart[..|cart| - 1]);
      assert forall i :: 0 <= i < |cart| - 1 ==> cart[..|cart| - 1][i] == cart[i];
    }
  }

  /** "Betala": an empty cart stays as it is with no toast; otherwise it is sent and emptied. */
  function Checkout(cart: Cart): (r: (Cart, Option<string>))
    ensures |cart| == 0 ==> r == (cart, None)
    ensures |cart| > 0 ==> r.0 == [] && r.1 == Some("Beställning skickad till köket!")
    ensures Total(r.0) == 0
  {
    if |cart| == 0 then (cart, None)
    else ([], Some("Beställning skickad till köket!"))
  }

  /** "Rensa": the cart and its bill drop to nothing. */
  function ClearCart(cart: Cart): (r: Cart)
    ensures |r| == 0 && Total(r) == 0
  {
    []
  }

  /** The menu cards of the selected category, in menu order. */
  function ItemsIn(menu: seq<MenuItem>, category: Category): (r: seq<MenuItem>)
    ensures |r| <= |menu|
    ensures forall i :: 0 <= i < |r| ==> r[i] in menu && r[i].category == category
    ensures forall i :: 0 <= i < |menu| && menu[i].category == category ==> menu[i] in r
  {
    Filter(menu, (m: MenuItem) => m.category == category)
  }
}
