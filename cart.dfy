/** The shopping cart of frontend/src/contexts/CartContext.jsx. The cart is
    a state cell that each operation replaces with a new list computed from
    the previous one; the list transforms are functions here and the cell
    is the field of class `Cart`. */
module CartContext {

  /** A product as the listing passes it to `addToCart`; only `id` is
      looked at, the rest is carried along. */
  datatype CartProduct = CartProduct(id: string, name: string, price: string, image: string)

  /** `{ ...product, quantity }` */
  datatype CartItem = CartItem(product: CartProduct, quantity: int) {
    function Id(): string { product.id }
  }

  predicate Contains(cart: seq<CartItem>, id: string) {
    exists i :: 0 <= i < |cart| && cart[i].Id() == id
  }

  /** No id appears twice and every quantity is at least one. */
  predicate WellFormed(cart: seq<CartItem>) {
    && (forall i, j :: 0 <= i < j < |cart| ==> cart[i].Id() != cart[j].Id())
    && (forall i :: 0 <= i < |cart| ==> cart[i].quantity >= 1)
  }

  /** Every item with the given id gets quantity `q` (or, when
      `increment`, one more than it had); the others and the order are kept. */
  function SetQuantities(cart: seq<CartItem>, id: string, q: int, increment: bool): (r: seq<CartItem>)
    ensures |r| == |cart|
    ensures forall i :: 0 <= i < |r| ==>
      r[i] == if cart[i].Id() != id then cart[i]
              else cart[i].(quantity := if increment then cart[i].quantity + 1 else q)
    decreases |cart|
  {
    if cart == [] then []
    else
      var head := if cart[0].Id() != id then cart[0]
                  else cart[0].(quantity := if increment then cart[0].quantity + 1 else q);
      [head] + SetQuantities(cart[1..], id, q, increment)
  }

  /** `addToCart`: a product already in the cart has its quantity raised by
      one; a new one is appended with quantity one. */
  function AddToCart(cart: seq<CartItem>, p: CartProduct): (r: seq<CartItem>)
    ensures !Contains(cart, p.id) ==> r == cart + [CartItem(p, 1)]
    ensures Contains(cart, p.id) ==>
      && |r| == |cart|
      && forall i :: 0 <= i < |r| ==>
           if cart[i].Id() == p.id then r[i] == cart[i].(quantity := cart[i].quantity + 1) else r[i] == cart[i]
  {
    if Contains(cart, p.id) then SetQuantities(cart, p.id, 0, true) else cart + [CartItem(p, 1)]
  }

  /** `removeFromCart`: the items with that id go, the rest stay in order. */
  function RemoveFromCart(cart: seq<CartItem>, id: string): (r: seq<CartItem>)
    ensures !Contains(r, id)
    ensures forall x :: x in r <==> x in cart && x.Id() != id
    ensures |r| <= |cart|
    ensures !Contains(cart, id) ==> r == cart
    ensures |cart| == 1 ==> r == if cart[0].Id() == id then [] else cart
    decreases |cart|
  {
    if cart == [] then []
    else if cart[0].Id() == id then RemoveFromCart(cart[1..], id)
    else
      var rest := RemoveFromCart(cart[1..], id);
      assert Contains(cart, id) <==> Contains(cart[1..], id) by {
        if Contains(cart, id) {
          var i :| 0 <= i < |cart| && cart[i].Id() == id;
          assert cart[1..][i - 1].Id() == id;
        }
        if Contains(cart[1..], id) {
          var i :| 0 <= i < |cart[1..]| && cart[1..][i].Id() == id;
          assert cart[i + 1].Id() == id;
        }
      }
      assert forall x :: x in cart <==> x == cart[0] || x in cart[1..] by {
        assert cart == [cart[0]] + cart[1..];
      }
      [cart[0]] + rest
  }

  /** Removing from a concatenation removes from each part and keeps the
      parts in order; with the one-item case of `RemoveFromCart`'s contract
      this makes the result the cart's items without that id, in their
      original order. */
  lemma {:induction false} RemoveKeepsOrder(a: seq<CartItem>, b: seq<CartItem>, id: string)
    ensures RemoveFromCart(a + b, id) == RemoveFromCart(a, id) + RemoveFromCart(b, id)
    decreases |a|
  {
    if a == [] {
      assert a + b == b;
    } else {
      assert (a + b)[0] == a[0];
      assert (a + b)[1..] == a[1..] + b;
      RemoveKeepsOrder(a[1..], b, id);
    }
  }

  /** `updateQuantity`: a quantity of zero or less removes the product;
      otherwise the product's quantity is set and nothing else changes. */
  function UpdateQuantity(cart: seq<CartItem>, id: string, q: int): (r: seq<CartItem>)
    ensures q <= 0 ==> r == RemoveFromCart(cart, id)
    ensures q > 0 ==>
      && |r| == |cart|
      && forall i :: 0 <= i < |r| ==>
           if cart[i].Id() == id then r[i] == cart[i].(quantity := q) else r[i] == cart[i]
  {
    if q <= 0 then RemoveFromCart(cart, id) else SetQuantities(cart, id, q, false)
  }

  /** `clearCart` */
  function ClearCart(): (r: seq<CartItem>)
    ensures |r| == 0
  {
    []
  }

  /** Adding keeps ids unique and quantities positive. */
  lemma AddKeepsWellFormed(cart: seq<CartItem>, p: CartProduct)
    requires WellFormed(cart)
    ensures WellFormed(AddToCart(cart, p))
  {
    var r := AddToCart(cart, p);
    if !Contains(cart, p.id) {
      forall i, j | 0 <= i < j < |r|
        ensures r[i].Id() != r[j].Id()
      {
        if j == |cart| {
          assert r[i] == cart[i];
        }
      }
    }
  }

  /** Removing keeps ids unique and quantities positive. */
  lemma {:induction false} RemoveKeepsWellFormed(cart: seq<CartItem>, id: string)
    requires WellFormed(cart)
    ensures WellFormed(RemoveFromCart(cart, id))
    decreases |cart|
  {
    if cart != [] {
      RemoveKeepsWellFormed(cart[1..], id);
      if cart[0].Id() != id {
        var rest := RemoveFromCart(cart[1..], id);
        forall k | 0 <= k < |rest|
          ensures rest[k].Id() != cart[0].Id() && rest[k].quantity >= 1
        {
          TailMember(cart, rest[k]);
        }
        ConsWellFormed(cart[0], rest);
      }
    }
  }

  /** An item of the tail of a well-formed cart has another id than its
      head and a positive quantity. */
  lemma TailMember(cart: seq<CartItem>, x: CartItem)
    requires WellFormed(cart) && |cart| > 0 && x in cart[1..]
    ensures x.Id() != cart[0].Id() && x.quantity >= 1
  {
    var m :| 0 <= m < |cart[1..]| && cart[1..][m] == x;
    assert cart[m + 1] == x;
  }

  lemma ConsWellFormed(head: CartItem, rest: seq<CartItem>)
    requires WellFormed(rest) && head.quantity >= 1
    requires forall k :: 0 <= k < |rest| ==> rest[k].Id() != head.Id()
    ensures WellFormed([head] + rest)
  {
    var r := [head] + rest;
    forall i, j | 0 <= i < j < |r|
      ensures r[i].Id() != r[j].Id()
    {
      assert r[j] == rest[j - 1];
      if i > 0 {
        assert r[i] == rest[i - 1];
      }
    }
  }

  /** Updating keeps ids unique and quantities positive. */
  lemma UpdateKeepsWellFormed(cart: seq<CartItem>, id: string, q: int)
    requires WellFormed(cart)
    ensures WellFormed(UpdateQuantity(cart, id, q))
  {
    if q <= 0 {
      RemoveKeepsWellFormed(cart, id);
    }
  }

  /** Removing a product just added leaves the cart as removing it from the
      cart before would have: adding touches no other product. */
  lemma AddThenRemove(cart: seq<CartItem>, p: CartProduct)
    ensures RemoveFromCart(AddToCart(cart, p), p.id) == RemoveFromCart(cart, p.id)
  {
    if Contains(cart, p.id) {
      RemoveAfterSet(cart, p.id, 0, true);
    } else {
      RemoveAfterAppend(cart, CartItem(p, 1));
    }
  }

  lemma {:induction false} RemoveAfterSet(cart: seq<CartItem>, id: string, q: int, increment: bool)
    ensures RemoveFromCart(SetQuantities(cart, id, q, increment), id) == RemoveFromCart(cart, id)
    decreases |cart|
  {
    if cart != [] {
      var r := SetQuantities(cart, id, q, increment);
      assert r[1..] == SetQuantities(cart[1..], id, q, increment);
      RemoveAfterSet(cart[1..], id, q, increment);
    }
  }

  lemma {:induction false} RemoveAfterAppend(cart: seq<CartItem>, x: CartItem)
    ensures RemoveFromCart(cart + [x], x.Id()) == RemoveFromCart(cart, x.Id())
    decreases |cart|
  {
    if cart == [] {
      assert RemoveFromCart([x], x.Id()) == RemoveFromCart([], x.Id());
    } else {
      assert (cart + [x])[1..] == cart[1..] + [x];
      RemoveAfterAppend(cart[1..], x);
    }
  }

  /** The cart cell. */
  class Cart {
    var cart: seq<CartItem>

    ghost predicate Valid()
      reads this
    {
      WellFormed(cart)
    }

    constructor()
      ensures Valid() && cart == []
    {
      cart := [];
    }

    method Add(p: CartProduct)
      requires Valid()
      modifies this
      ensures Valid()
      ensures cart == AddToCart(old(cart), p)
    {
      AddKeepsWellFormed(cart, p);
      cart := AddToCart(cart, p);
    }

    method Remove(id: string)
      requires Valid()
      modifies this
      ensures Valid()
      ensures cart == RemoveFromCart(old(cart), id)
    {
      RemoveKeepsWellFormed(cart, id);
      cart := RemoveFromCart(cart, id);
    }

    method Update(id: string, q: int)
      requires Valid()
      modifies this
      ensures Valid()
      ensures cart == UpdateQuantity(old(cart), id, q)
    {
      UpdateKeepsWellFormed(cart, id, q);
      if q <= 0 {
        Remove(id);
      } else {
        cart := SetQuantities(cart, id, q, false);
      }
    }

    method Clear()
      requires Valid()
      modifies this
      ensures Valid()
      ensures cart == ClearCart()
    {
      cart := [];
    }
  }
}
