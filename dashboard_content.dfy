/**
 * The account area's content panel: the purchase list (with its items' titles,
 * covers and short ids), the tab dispatch, and the avatar preview of the profile form.
 * The live query that delivers the purchases and the date formatting are outside the model.
 */
module DashboardContent {
  import opened Js
  import opened JsString
  import opened Records

  /** An item as stored with a purchase: a bare title, or an object with optional title and cover. */
  datatype PurchaseItem = TitleOnly(title: string) | Entry(titulo: Option<string>, imagen: Option<string>)

  datatype Purchase = Purchase(id: string, cantidad: int, items: seq<PurchaseItem>)

  const ItemPlaceholder: string := "https://via.placeholder.com/200x300/1f2937/67e8f9?text=🎬"
  const AvatarPlaceholder: string := "https://via.placeholder.com/150/4B5563/FFFFFF?text=U"

  /** The caption of an item: a bare title as it is, an object's title when truthy, otherwise "Película". */
  function ItemTitle(item: PurchaseItem): (r: string)
    ensures item.TitleOnly? ==> r == item.title
    ensures item.Entry? && Truthy(item.titulo) ==> r == item.titulo.value
    ensures item.Entry? && !Truthy(item.titulo) ==> r == "Película"
    ensures item.Entry? ==> r != ""
  {
    match item
    case TitleOnly(t) => t
    case Entry(titulo, _) => OrDefault(titulo, "Película")
  }

  /** The cover of an item: an object's truthy `imagen`, otherwise the placeholder; never empty. */
  function ItemImage(item: PurchaseItem): (r: string)
    ensures item.Entry? && Truthy(item.imagen) ==> r == item.imagen.value
    ensures !(item.Entry? && Truthy(item.imagen)) ==> r == ItemPlaceholder
    ensures r != ""
  {
    if item.Entry? && Truthy(item.imagen) then item.imagen.value else ItemPlaceholder
  }

  /** `Compra #${compra.id.slice(-5)}`: the end of the purchase id, at most five characters. */
  function PurchaseLabel(id: string): (r: string)
    ensures |r| >= 8 && r[..8] == "Compra #"
    ensures |r| == 8 + (if |id| < 5 then |id| else 5)
    ensures id == id[..|id| - (|r| - 8)] + r[8..]
  {
    var tail := SliceLast(id, 5);
    var r := "Compra #" + tail;
    assert r[8..] == tail;
    r
  }

  /** Two ids that differ in their last five characters get different labels. */
  lemma LabelsTellApart(a: string, b: string)
    requires |a| >= 5 && |b| >= 5 && a[|a| - 5..] != b[|b| - 5..]
    ensures PurchaseLabel(a) != PurchaseLabel(b)
  {
    assert PurchaseLabel(a)[8..] == a[|a| - 5..];
    assert PurchaseLabel(b)[8..] == b[|b| - 5..];
  }

  /** A rendered item: caption and cover. */
  datatype ItemCard = ItemCard(title: string, image: string)
  /** A rendered purchase: its label, its count, its items. */
  datatype PurchaseCard = PurchaseCard(caption: string, cantidad: int, items: seq<ItemCard>)
  datatype PurchasesView = EmptyState | PurchaseCards(cards: seq<PurchaseCard>)

  /** `RenderPurchases`: the empty state without purchases, otherwise one card per purchase, in order. */
  function RenderPurchases(compras: seq<Purchase>): (v: PurchasesView)
    ensures v.EmptyState? <==> compras == []
    ensures v.PurchaseCards? ==>
      |v.cards| == |compras| &&
      forall i :: 0 <= i < |compras| ==>
        v.cards[i].caption == PurchaseLabel(compras[i].id) && v.cards[i].cantidad == compras[i].cantidad &&
        |v.cards[i].items| == |compras[i].items| &&
        forall j :: 0 <= j < |compras[i].items| ==>
          v.cards[i].items[j] == ItemCard(ItemTitle(compras[i].items[j]), ItemImage(compras[i].items[j]))
  {
    if |compras| == 0 then EmptyState
    else
      PurchaseCards(seq(|compras|, i requires 0 <= i < |compras| =>
        PurchaseCard(PurchaseLabel(compras[i].id), compras[i].cantidad,
          seq(|compras[i].items|, j requires 0 <= j < |compras[i].items| =>
            ItemCard(ItemTitle(compras[i].items[j]), ItemImage(compras[i].items[j]))))))
  }

  datatype Section = ProfileForm | Favorites | Purchases

  /** The three `activeTab === …` guards: the section named by the tab, and nothing for any other tab. */
  function RenderedSections(activeTab: string): (r: seq<Section>)
    ensures |r| <= 1
    ensures r == [ProfileForm] <==> activeTab == "profile"
    ensures r == [Favorites] <==> activeTab == "favorites"
    ensures r == [Purchases] <==> activeTab == "purchases"
    ensures r == [] <==> activeTab != "profile" && activeTab != "favorites" && activeTab != "purchases"
  {
    var r := (if activeTab == "profile" then [ProfileForm] else [])
      + (if activeTab == "favorites" then [Favorites] else [])
      + (if activeTab == "purchases" then [Purchases] else []);
    assert r == if activeTab == "profile" then [ProfileForm]
      else if activeTab == "favorites" then [Favorites]
      else if activeTab == "purchases" then [Purchases]
      else [];
    assert [ProfileForm][0] != [Favorites][0] && [Favorites][0] != [Purchases][0] && [ProfileForm][0] != [Purchases][0];
    r
  }

  /** Where the avatar preview's picture comes from. */
  datatype ImageSource = ObjectUrl(file: File) | Url(url: string)

  /** The preview: a newly picked file first, then the user's picture, then the placeholder. */
  function AvatarPreview(newAvatarFile: Option<File>, user: Option<AuthUser>): (r: ImageSource)
    ensures newAvatarFile.Some? ==> r == ObjectUrl(newAvatarFile.value)
    ensures newAvatarFile.None? && Truthy(AvatarUrl(user)) ==> r == Url(AvatarUrl(user).value)
    ensures newAvatarFile.None? && !Truthy(AvatarUrl(user)) ==> r == Url(AvatarPlaceholder)
    ensures r.Url? ==> r.url != ""
  {
    match newAvatarFile
    case Some(f) => ObjectUrl(f)
    case None => Url(OrDefault(AvatarUrl(user), AvatarPlaceholder))
  }
}
