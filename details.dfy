/** The public page of one item: the endpoint and the `id` taken from the
    URL, the pricing block, the stock label and the share link. */
module InventoryDetails {
  import opened Wrappers
  import opened Strings
  import opened Query
  import opened Items
  import Inventory
  import AdminDashboard

  /** The host the share link always names. */
  const SiteOrigin: string := "https://americanmusclecars.eu"

  /** `params.get('id')` on `location.search`. */
  function IdParam(search: string): Option<string> {
    GetParam(search, "id")
  }

  /** The effect fetches only for a truthy `id`. */
  predicate ShouldFetch(search: string) {
    IdParam(search).Some? && IdParam(search).value != ""
  }

  /** Following a card (`/inventory/{segment}?id={id}`) opens the details
      page on the card's endpoint and fetches the card's item. */
  lemma {:induction false} CardOpensItsItem(kind: Kind, id: string)
    requires id != "" && '&' !in id && '%' !in id && '+' !in id
    ensures Endpoint("/inventory/" + KindSegment(kind)) == kind
    ensures IdParam("?id=" + id) == Some(id)
    ensures ShouldFetch("?id=" + id)
  {
    EndpointOfKindPage(kind);
    var search := "?id=" + id;
    assert search[0] == '?' && search[1..] == "id" + "=" + id;
    SinglePair("id", id);
  }

  /** The `pricing` memo. */
  datatype Pricing = Pricing(hasDiscount: bool, original: int, discounted: Option<int>, discount: Option<int>)

  /** Without an item or a sale price: no discount, the price (or 0) and no
      sale figures; with a sale price: the price, the sale price and the
      stored discount if any. */
  function PricingOf(item: Option<Item>): (p: Pricing)
    ensures p.hasDiscount <==> item.Some? && item.value.salePrice.Some?
    ensures p.original == (if item.Some? then item.value.price else 0)
    ensures !p.hasDiscount ==> p.discounted.None? && p.discount.None?
    ensures p.hasDiscount ==> p.discounted == item.value.salePrice && p.discount == item.value.discount
  {
    match item
    case None => Pricing(false, 0, None, None)
    case Some(it) =>
      if it.salePrice.None? then Pricing(false, it.price, None, None)
      else Pricing(true, it.price, it.salePrice, it.discount)
  }

  /** A card with a discount badge opens a page that shows the sale and the
      saving. */
  lemma BadgeMeansSaving(item: Item)
    requires Inventory.BadgeShown(item)
    ensures PricingOf(Some(item)).hasDiscount && PricingOf(Some(item)).discount == item.discount
    ensures PricingOf(Some(item)).discount.Some?
  {
  }

  /** The stock line: its label and its colour. */
  datatype StockBadge = StockBadge(text: string, colour: string)

  function StockBadgeOf(stock: string): (b: StockBadge)
    ensures stock == "No" ==> b == StockBadge("Sold", "red")
    ensures stock == "Coming Soon" ==> b == StockBadge("Coming Soon", "orange")
    ensures stock != "No" && stock != "Coming Soon" ==> b == StockBadge("Available", "green")
  {
    if stock == "No" then StockBadge("Sold", "red")
    else if stock == "Coming Soon" then StockBadge("Coming Soon", "orange")
    else StockBadge("Available", "green")
  }

  /** The list and the page agree on what is sold; a reserved item reads
      as available here. */
  lemma SoldAgreesWithList(item: Item)
    ensures StockBadgeOf(item.stock).text == "Sold" <==> Inventory.OverlayOf(item) == Inventory.SoldOverlay
    ensures item.stock == "Reserved" ==> StockBadgeOf(item.stock).text == "Available"
  {
    assert "Sold"[0] == 'S' && "Available"[0] == 'A' && "Coming Soon"[0] == 'C';
    if item.stock == "Reserved" {
      assert item.stock[0] == 'R';
    }
  }

  /** `shareUrl`: the item's page on the public site. */
  function ShareUrl(pathname: string, id: string): string {
    SiteOrigin + CardUrl(Endpoint(pathname), id)
  }

  /** A shared link pasted into the admin dashboard's filter finds the item. */
  lemma {:induction false} ShareUrlFindsItemInDashboard(pathname: string, id: string)
    requires '?' !in id && '&' !in id
    requires '%' !in id && '+' !in id
    ensures AdminDashboard.ExtractIdFromInput(ShareUrl(pathname, id)) == Some(id)
  {
    var segment := KindSegment(Endpoint(pathname));
    var path := SiteOrigin + "/inventory/" + segment;
    assert '?' !in path by {
      assert forall ch :: ch in path ==> ch in SiteOrigin + "/inventory/" || ch in segment;
    }
    assert ShareUrl(pathname, id) == path + "?id=" + id;
    AdminDashboard.IdFromLink(path, id);
  }
}
