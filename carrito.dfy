/** The cart page: the stored cart loaded once, and removal by movie id. */
module Carrito {
  import opened Records
  import opened Seqs
  import opened BrowserStorage
  import Detalle

  /** `carrito.filter((p) => p.id !== id)`. */
  function RemoveFromCart(cart: seq<CartItem>, id: int): (r: seq<CartItem>)
    ensures !HasId(r, id)
    ensures forall x :: x in r <==> x in cart && x.id != id
    ensures IsSubsequence(r, cart)
  {
    var r := Filter(cart, (p: CartItem) => p.id != id);
    FilterIsSubsequence(cart, (p: CartItem) => p.id != id);
    assert forall i :: 0 <= i < |r| ==> r[i] in r;
    r
  }

  /** Removal keeps every item with another id, each as often as before. */
  lemma RemoveKeepsOthers(cart: seq<CartItem>, id: int, x: CartItem)
    ensures multiset(RemoveFromCart(cart, id))[x] == if x.id != id then multiset(cart)[x] else 0
  {
    FilterMultiplicity(cart, (p: CartItem) => p.id != id, x);
  }

  /** Removing an id that is not in the cart changes nothing; removing twice is removing once. */
  lemma RemoveAbsentOrTwice(cart: seq<CartItem>, id: int)
    ensures !HasId(cart, id) ==> RemoveFromCart(cart, id) == cart
    ensures RemoveFromCart(RemoveFromCart(cart, id), id) == RemoveFromCart(cart, id)
  {
    FilterIdentityIff(cart, (p: CartItem) => p.id != id);
    FilterIdempotent(cart, (p: CartItem) => p.id != id);
  }

  /** The tail of a cart with unique ids has unique ids and no item with the head's id. */
  lemma UniqueTail(cart: seq<CartItem>)
    requires cart != [] && UniqueIds(cart)
    ensures UniqueIds(cart[1..])
    ensures !HasId(cart[1..], cart[0].id)
  {
    var rest := cart[1..];
    forall i, j | 0 <= i < j < |rest| ensures rest[i].id != rest[j].id {
      assert rest[i] == cart[i + 1] && rest[j] == cart[j + 1];
    }
    forall i | 0 <= i < |rest| ensures rest[i].id != cart[0].id {
      assert rest[i] == cart[i + 1];
    }
  }

  /** An id is in a non-empty cart when it is the head's or it is in the tail. */
  lemma HasIdCons(cart: seq<CartItem>, id: int)
    requires cart != []
    ensures HasId(cart, id) <==> cart[0].id == id || HasId(cart[1..], id)
  {
    if HasId(cart, id) && cart[0].id != id {
      var i :| 0 <= i < |cart| && cart[i].id == id;
      assert cart[1..][i - 1].id == id;
    }
    if HasId(cart[1..], id) {
      var i :| 0 <= i < |cart[1..]| && cart[1..][i].id == id;
      assert cart[i + 1].id == id;
    }
  }

  /** Removal keeps ids unique, and then takes exactly one item away when the id was present. */
  lemma {:induction false} RemoveFromUnique(cart: seq<CartItem>, id: int)
    requires UniqueIds(cart)
    ensures UniqueIds(RemoveFromCart(cart, id))
    ensures |RemoveFromCart(cart, id)| == if HasId(cart, id) then |cart| - 1 else |cart|
  {
    if cart != [] {
      var rest := cart[1..];
      UniqueTail(cart);
      HasIdCons(cart, id);
      RemoveFromUnique(rest, id);
      var r := RemoveFromCart(cart, id);
      var rr := RemoveFromCart(rest, id);
      if cart[0].id != id {
        assert r == [cart[0]] + rr;
        assert !HasId(rr, cart[0].id) by {
          forall i | 0 <= i < |rr| ensures rr[i].id != cart[0].id {
            assert rr[i] in rest;
          }
        }
      } else {
        assert r == rr;
        RemoveAbsentOrTwice(rest, id);
      }
    }
  }

  /** Removing the movie just added gives back the cart as it was before the add. */
  lemma RemoveUndoesAdd(cart: seq<CartItem>, m: Movie)
    requires !HasId(cart, m.id)
    ensures RemoveFromCart(Detalle.AddToCart(cart, m), m.id) == cart
  {
    var p := (c: CartItem) => c.id != m.id;
    FilterAppend(cart, [Detalle.ItemOf(m)], p);
    RemoveAbsentOrTwice(cart, m.id);
    assert Filter([Detalle.ItemOf(m)], p) == [];
  }

  /** The cart page's state over the shared store. */
  class CartPage {
    const store: LocalStorage
    var carrito: seq<CartItem>

    /** Mounting: the stored cart, or the empty list when none is stored. */
    constructor (store: LocalStorage)
      ensures this.store == store
      ensures carrito == StoredCart(store.entries)
    {
      this.store := store;
      carrito := StoredCart(store.entries);
    }

    /** `totalItems`: the number shown in the heading. */
    function TotalItems(): nat
      reads this
    {
      |carrito|
    }

    /**
     * `eliminar(id)`: the filtered list is written to "carrito" and becomes the
     * page's cart, so the stored and the displayed cart agree afterwards.
     */
    method Eliminar(id: int)
      modifies this, store
      ensures carrito == RemoveFromCart(old(carrito), id)
      ensures store.entries == old(store.entries)[CartKey := CartList(carrito)]
      ensures StoredCart(store.entries) == carrito
      ensures UniqueIds(old(carrito)) && HasId(old(carrito), id) ==> TotalItems() == old(TotalItems()) - 1
    {
      var nuevoCarrito := RemoveFromCart(carrito, id);
      store.SetItem(CartKey, CartList(nuevoCarrito));
      carrito := nuevoCarrito;
      if UniqueIds(old(carrito)) {
        RemoveFromUnique(old(carrito), id);
      }
    }
  }
}
