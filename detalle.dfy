/** The movie detail page: finding the movie named by the route and adding it to the cart. */
module Detalle {
  import opened Js
  import opened Records
  import opened Seqs
  import opened BrowserStorage
  import JsNumber

  /** Whether `m` is the movie the route parameter `routeId` names: `p.id === parseInt(id)` (NaN names none). */
  predicate Names(routeId: string, m: Movie)
  {
    JsNumber.ParseInt(routeId) == Some(m.id)
  }

  /**
   * `peliculas.find((p) => p.id === parseInt(id))`: the first catalog movie whose
   * id is the parsed route id; `None` takes the "not found" branch.
   */
  function FindMovie(catalog: seq<Movie>, routeId: string): (r: Option<Movie>)
    ensures r.None? <==> forall i :: 0 <= i < |catalog| ==> !Names(routeId, catalog[i])
    ensures r.Some? ==> Names(routeId, r.value)
    ensures r.Some? ==> exists k :: (0 <= k < |catalog| && catalog[k] == r.value &&
      forall j :: 0 <= j < k ==> !Names(routeId, catalog[j]))
  {
    var r := Find(catalog, (m: Movie) => Names(routeId, m));
    assert r.Some? ==> catalog[FindIndex(catalog, (m: Movie) => Names(routeId, m))] == r.value;
    r
  }

  ghost predicate UniqueMovieIds(catalog: seq<Movie>)
  {
    forall i, j :: 0 <= i < j < |catalog| ==> catalog[i].id != catalog[j].id
  }

  /** Following a catalog link `/detalle/${p.id}` opens that movie's page when catalog ids are unique. */
  lemma LinkOpensMovie(catalog: seq<Movie>, k: nat)
    requires k < |catalog| && UniqueMovieIds(catalog)
    ensures FindMovie(catalog, JsNumber.NumberToString(catalog[k].id)) == Some(catalog[k])
  {
    var routeId := JsNumber.NumberToString(catalog[k].id);
    JsNumber.ParseIntNumberToString(catalog[k].id);
    assert Names(routeId, catalog[k]);
    var r := FindMovie(catalog, routeId);
    var i :| 0 <= i < |catalog| && catalog[i] == r.value &&
      forall j :: 0 <= j < i ==> !Names(routeId, catalog[j]);
    assert i == k;
  }

  /** The item `{ id, titulo, imagen }` built from a movie. */
  function ItemOf(m: Movie): CartItem
  {
    CartItem(m.id, m.titulo, m.imagen)
  }

  /** The cart after `handleAddToCart`: the movie is appended unless an item with its id is already there. */
  function AddToCart(cart: seq<CartItem>, m: Movie): (r: seq<CartItem>)
    ensures !HasId(cart, m.id) ==> r == cart + [ItemOf(m)]
    ensures HasId(cart, m.id) ==> r == cart
    ensures |r| >= |cart| && r[..|cart|] == cart
    ensures HasId(r, m.id)
    ensures UniqueIds(cart) ==> UniqueIds(r)
  {
    if HasId(cart, m.id) then cart
    else
      var r := cart + [ItemOf(m)];
      assert r[|cart|].id == m.id;
      r
  }

  /** Adding the same movie twice leaves the cart as adding it once. */
  lemma AddToCartIdempotent(cart: seq<CartItem>, m: Movie)
    ensures AddToCart(AddToCart(cart, m), m) == AddToCart(cart, m)
  {
  }

  /**
   * `handleAddToCart`: reads the stored cart (missing means empty) and, when the
   * movie is not in it, stores the cart with the movie's item appended; otherwise
   * nothing is written. `added` tells which of the two alerts is shown.
   */
  method HandleAddToCart(store: LocalStorage, pelicula: Movie) returns (added: bool)
    modifies store
    ensures added == !HasId(StoredCart(old(store.entries)), pelicula.id)
    ensures added ==>
      store.entries == old(store.entries)[CartKey := CartList(AddToCart(StoredCart(old(store.entries)), pelicula))]
    ensures !added ==> store.entries == old(store.entries)
    ensures StoredCart(store.entries) == AddToCart(StoredCart(old(store.entries)), pelicula)
  {
    var carritoActual := StoredCart(store.entries);
    var existe := HasId(carritoActual, pelicula.id);
    if !existe {
      var nuevoCarrito := carritoActual + [ItemOf(pelicula)];
      store.SetItem(CartKey, CartList(nuevoCarrito));
    }
    added := !existe;
  }
}
