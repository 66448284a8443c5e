/** The public inventory list: the endpoint chosen from the path, the
    galleries turned into public URLs, the available items ahead of the sold
    ones, and what each card shows and links to. */
module Inventory {
  import opened Wrappers
  import opened Strings
  import opened Seqs
  import opened Items

  /** The list page's endpoint: the path loses its leading slashes first. */
  function ListEndpoint(pathname: string): Kind {
    Endpoint(StripLeadingSlashes(pathname))
  }

  /** Stripping the leading slashes never changes the choice, so the list
      and the details page agree on the endpoint of any path. */
  lemma ListEndpointIgnoresSlashes(pathname: string)
    ensures ListEndpoint(pathname) == Endpoint(pathname)
    ensures ListEndpoint(pathname) == UsedCarPartKind <==> Contains(pathname, "used-car-parts")
  {
    ContainsIgnoresLeadingSlashes(pathname, "used-car-parts");
  }

  /** `{...item, imageGallery: <public URLs>}` */
  function WithPublicGallery(bucketUrl: string, item: Item): (r: Item)
    ensures r.imageGallery == Some(PublicGallery(bucketUrl, item.imageGallery))
    ensures r.(imageGallery := item.imageGallery) == item
  {
    item.(imageGallery := Some(PublicGallery(bucketUrl, item.imageGallery)))
  }

  /** `cleaned`: every item with its gallery made public. */
  function Cleaned(bucketUrl: string, data: seq<Item>): (r: seq<Item>)
    ensures |r| == |data|
    ensures forall i :: 0 <= i < |r| ==> r[i] == WithPublicGallery(bucketUrl, data[i])
  {
    seq(|data|, i requires 0 <= i < |data| => WithPublicGallery(bucketUrl, data[i]))
  }

  /** The first group: stock `Yes` or `Reserved`. */
  predicate Available(item: Item) {
    item.stock == "Yes" || item.stock == "Reserved"
  }

  /** The second group: stock `No`. */
  predicate Sold(item: Item) {
    item.stock == "No"
  }

  /** What the list shows at all. */
  predicate Listed(item: Item) {
    Available(item) || Sold(item)
  }

  lemma AvailableNotSold(item: Item)
    ensures !(Available(item) && Sold(item))
  {
    if item.stock == "No" {
      assert item.stock[0] == 'N';
      assert "Yes"[0] == 'Y' && "Reserved"[0] == 'R';
    }
  }

  /** `[...yes, ...no]` where each group went through `weightedShuffle`, a
      sort by a randomised comparator: whatever order it picks is a
      permutation, so `shuffle` stands for any reordering. Available items
      come before sold ones, items of any other stock are left out, and every
      listed item appears as often as in the data. */
  function Listing(cleaned: seq<Item>, shuffle: seq<Item> -> seq<Item>): (r: seq<Item>)
    requires forall s :: multiset(shuffle(s)) == multiset(s)
    ensures forall i, j :: 0 <= i < j < |r| && Sold(r[i]) ==> Sold(r[j])
    ensures forall x :: x in r <==> x in cleaned && Listed(x)
    ensures multiset(r) == multiset(Filter(cleaned, Listed))
  {
    var yes := shuffle(Filter(cleaned, Available));
    var no := shuffle(Filter(cleaned, Sold));
    var r := yes + no;
    forall x | x in yes ensures Available(x) {
      assert x in multiset(yes);
    }
    forall x | x in no ensures Sold(x) {
      assert x in multiset(no);
    }
    forall i, j | 0 <= i < j < |r| && Sold(r[i]) ensures Sold(r[j]) {
      if i < |yes| {
        assert r[i] in yes;
        AvailableNotSold(r[i]);
      }
      assert r[j] in no;
    }
    forall item ensures !(Available(item) && Sold(item)) {
      AvailableNotSold(item);
    }
    FilterDisjointUnion(cleaned, Available, Sold, Listed);
    assert multiset(r) == multiset(Filter(cleaned, Listed));
    forall x ensures x in r <==> x in cleaned && Listed(x) {
      assert x in r <==> x in multiset(r);
      assert x in Filter(cleaned, Listed) <==> x in multiset(Filter(cleaned, Listed));
    }
    r
  }

  /** An item with neither stock (such as `Coming Soon`) never shows. */
  lemma ComingSoonIsHidden(cleaned: seq<Item>, shuffle: seq<Item> -> seq<Item>, item: Item)
    requires forall s :: multiset(shuffle(s)) == multiset(s)
    requires item.stock == "Coming Soon"
    ensures item !in Listing(cleaned, shuffle)
  {
    assert item.stock[0] == 'C';
    assert "Yes"[0] == 'Y' && "Reserved"[0] == 'R' && "No"[0] == 'N';
  }

  /** `handleCardClick`: the item's page under the list's endpoint. */
  function CardTarget(pathname: string, id: string): string {
    CardUrl(ListEndpoint(pathname), id)
  }

  /** The discount badge: a sale price, a stock other than `No`, and a
      stored discount. */
  predicate BadgeShown(item: Item) {
    item.salePrice.Some? && item.stock != "No" && item.discount.Some?
  }

  /** The overlay across a card. */
  datatype Overlay = SoldOverlay | ReservedOverlay | NoOverlay

  function OverlayOf(item: Item): (o: Overlay)
    ensures o == SoldOverlay <==> Sold(item)
    ensures o == ReservedOverlay <==> item.stock == "Reserved"
  {
    if item.stock == "No" then SoldOverlay
    else if item.stock == "Reserved" then ReservedOverlay
    else NoOverlay
  }

  /** `Overlay`'s text and colour. */
  function OverlayText(o: Overlay): (string, string) {
    match o
    case SoldOverlay => ("Sold", "red")
    case ReservedOverlay => ("Reserved", "orange")
    case NoOverlay => ("", "")
  }

  /** The price line of a card: the price alone, or struck through next to
      the sale price when there is one. */
  datatype PriceLine = Plain(price: int) | Sale(was: int, now: int)

  function CardPrice(item: Item): (p: PriceLine)
    ensures p.Sale? <==> item.salePrice.Some?
    ensures p.Plain? ==> p.price == item.price
    ensures p.Sale? ==> p.was == item.price && p.now == item.salePrice.value
  {
    match item.salePrice
    case Some(sale) => Sale(item.price, sale)
    case None => Plain(item.price)
  }

  /** A sold item never carries a badge, and a badge comes with a sale price. */
  lemma BadgeOnlyOnUnsoldSales(item: Item)
    requires BadgeShown(item)
    ensures OverlayOf(item) != SoldOverlay && CardPrice(item).Sale?
  {
  }
}
