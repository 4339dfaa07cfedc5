/** The records the storefront passes around: catalog entries, cart items, reviews and the signed-in user. */
module Records {
  import opened Js

  /**
   * An entry of the movie catalog. The title, year and cover may be absent
   * (the search guards them with `?.`); genre and category are always read directly.
   */
  datatype Movie = Movie(
    id: int,
    titulo: Option<string>,
    genero: string,
    categoria: string,
    anio: Option<int>,
    imagen: Option<string>)

  /** What the cart keeps of a movie: `{ id, titulo, imagen }`. */
  datatype CartItem = CartItem(id: int, titulo: Option<string>, imagen: Option<string>)

  /** `cart.some((p) => p.id === id)`. */
  predicate HasId(cart: seq<CartItem>, id: int)
  {
    exists i :: 0 <= i < |cart| && cart[i].id == id
  }

  /** No two cart items share an id. */
  ghost predicate UniqueIds(cart: seq<CartItem>)
  {
    forall i, j :: 0 <= i < j < |cart| ==> cart[i].id != cart[j].id
  }

  /** A review of a movie. The reviews shipped with the site may carry no `uid`. */
  datatype Comment = Comment(
    id: int,
    peliculaId: int,
    nombreUsuario: string,
    mensaje: string,
    puntuacion: int,
    uid: Option<string>)

  /** The signed-in user: the identity provider's fields merged with the stored profile. */
  datatype AuthUser = AuthUser(
    uid: string,
    displayName: Option<string>,
    email: Option<string>,
    photoURL: Option<string>,
    avatar: Option<string>,
    username: Option<string>,
    lastName: Option<string>,
    fechaNacimiento: Option<string>,
    celular: Option<string>,
    cineFavorito: Option<string>,
    genero: Option<string>)

  /** A file picked in a file input; its contents are never inspected. */
  datatype File = File(name: string)

  /** `user?.photoURL || user?.avatar`: the provider's photo first, then the uploaded avatar. */
  function AvatarUrl(user: Option<AuthUser>): (r: Option<string>)
    ensures user.None? ==> r.None?
    ensures user.Some? && Truthy(user.value.photoURL) ==> r == user.value.photoURL
    ensures user.Some? && !Truthy(user.value.photoURL) ==> r == user.value.avatar
    ensures Truthy(r) <==> user.Some? && (Truthy(user.value.photoURL) || Truthy(user.value.avatar))
  {
    match user
    case None => None
    case Some(u) => Or(u.photoURL, u.avatar)
  }
}
