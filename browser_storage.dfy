/**
 * The browser's localStorage as the storefront uses it: the cart under
 * "carrito", the reviews of each movie under "comentarios_<id>" and the theme
 * under "tema". JSON encoding is left abstract: a key holds the value that
 * was last written to it.
 */
module BrowserStorage {
  import opened Js
  import opened Records
  import JsNumber

  /** What one key holds once parsed back. */
  datatype Stored = CartList(items: seq<CartItem>) | CommentList(comments: seq<Comment>) | Text(text: string)

  const CartKey: string := "carrito"
  const ThemeKey: string := "tema"

  /** `comentarios_${peliculaId}`. */
  function CommentsKey(peliculaId: int): string
  {
    "comentarios_" + JsNumber.NumberToString(peliculaId)
  }

  /** The three kinds of key never collide, and each movie has a key of its own. */
  lemma KeysDistinct(a: int, b: int)
    ensures CommentsKey(a) != CartKey && CommentsKey(a) != ThemeKey
    ensures CommentsKey(a) == CommentsKey(b) ==> a == b
  {
    var prefix := "comentarios_";
    assert |CommentsKey(a)| > |CartKey|;
    if CommentsKey(a) == CommentsKey(b) {
      assert CommentsKey(a)[|prefix|..] == JsNumber.NumberToString(a);
      assert CommentsKey(b)[|prefix|..] == JsNumber.NumberToString(b);
      JsNumber.NumberToStringInjective(a, b);
    }
  }

  /** `JSON.parse(localStorage.getItem("carrito")) || []`: a missing cart reads as empty. */
  function StoredCart(entries: map<string, Stored>): (r: seq<CartItem>)
    ensures CartKey !in entries ==> r == []
    ensures CartKey in entries && entries[CartKey].CartList? ==> r == entries[CartKey].items
  {
    if CartKey in entries && entries[CartKey].CartList? then entries[CartKey].items else []
  }

  /** `JSON.parse(localStorage.getItem(`comentarios_${id}`)) || []`. */
  function StoredComments(entries: map<string, Stored>, peliculaId: int): (r: seq<Comment>)
    ensures CommentsKey(peliculaId) !in entries ==> r == []
    ensures CommentsKey(peliculaId) in entries && entries[CommentsKey(peliculaId)].CommentList? ==>
      r == entries[CommentsKey(peliculaId)].comments
  {
    var key := CommentsKey(peliculaId);
    if key in entries && entries[key].CommentList? then entries[key].comments else []
  }

  /** `localStorage.getItem("tema")`: a string, or `null` when nothing is stored. */
  function StoredTheme(entries: map<string, Stored>): (r: Option<string>)
    ensures ThemeKey !in entries ==> r.None?
    ensures ThemeKey in entries && entries[ThemeKey].Text? ==> r == Some(entries[ThemeKey].text)
  {
    if ThemeKey in entries && entries[ThemeKey].Text? then Some(entries[ThemeKey].text) else None
  }

  /** The browser's store for the site's origin. */
  class LocalStorage {
    var entries: map<string, Stored>

    constructor (initial: map<string, Stored>)
      ensures entries == initial
    {
      entries := initial;
    }

    /** `localStorage.setItem(key, value)`: that key now holds `value`; every other key is unchanged. */
    method SetItem(key: string, value: Stored)
      modifies this
      ensures entries == old(entries)[key := value]
    {
      entries := entries[key := value];
    }
  }

  /** Writing one movie's reviews leaves the cart, the theme and every other movie's reviews as they were. */
  lemma CommentsWriteIsolated(entries: map<string, Stored>, peliculaId: int, comments: seq<Comment>, other: int)
    requires other != peliculaId
    ensures StoredCart(entries[CommentsKey(peliculaId) := CommentList(comments)]) == StoredCart(entries)
    ensures StoredTheme(entries[CommentsKey(peliculaId) := CommentList(comments)]) == StoredTheme(entries)
    ensures StoredComments(entries[CommentsKey(peliculaId) := CommentList(comments)], other) == StoredComments(entries, other)
    ensures StoredComments(entries[CommentsKey(peliculaId) := CommentList(comments)], peliculaId) == comments
  {
    KeysDistinct(peliculaId, other);
  }
}
