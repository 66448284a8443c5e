/** The inventory records the storefront, the admin console and the server
    exchange with the API: a car or a used car part, both sellable. */
module Items {
  import opened Wrappers
  import opened Strings

  /** `'car' | 'used-car-part'` */
  datatype Kind = CarKind | UsedCarPartKind

  /** A sellable item. Both constructors carry the sellable fields (`id`,
      `name`, `stock`, `price`, optional `salePrice` and `discount`, and an
      `imageGallery` the API may omit); a car adds its year and technical
      fields, a part its description. Prices are whole numbers. */
  datatype Item =
    | Car(id: string, name: string, stock: string, price: int,
          salePrice: Option<int>, discount: Option<int>, imageGallery: Option<seq<string>>,
          year: int, engine: string, gearType: string, gasType: string)
    | UsedCarPart(id: string, name: string, stock: string, price: int,
          salePrice: Option<int>, discount: Option<int>, imageGallery: Option<seq<string>>,
          description: string)

  /** `getInventoryType`: an item with a `year` is a car. */
  function KindOf(item: Item): Kind {
    if item.Car? then CarKind else UsedCarPartKind
  }

  /** The path segment of a kind's inventory pages and API collection. */
  function KindSegment(kind: Kind): (segment: string)
    ensures segment == "cars" || segment == "used-car-parts"
  {
    match kind
    case CarKind => "cars"
    case UsedCarPartKind => "used-car-parts"
  }

  /** `path.includes('used-car-parts') ? 'used-car-parts' : 'cars'` */
  function Endpoint(path: string): Kind {
    if Contains(path, "used-car-parts") then UsedCarPartKind else CarKind
  }

  /** `/inventory/${segment}?id=${id}`: the page of one item. */
  function CardUrl(kind: Kind, id: string): string {
    "/inventory/" + KindSegment(kind) + "?id=" + id
  }

  /** The inventory page of a kind leads back to that kind's endpoint. */
  lemma {:induction false} EndpointOfKindPage(kind: Kind)
    ensures Endpoint("/inventory/" + KindSegment(kind)) == kind
  {
    var page := "/inventory/" + KindSegment(kind);
    match kind
    case CarKind =>
      assert page == "/inventory/cars";
      assert 'u' !in page by {
        forall i | 0 <= i < |page| ensures page[i] != 'u' {
          assert page[i] in "/inventory/cars";
        }
      }
      NotContainsChar(page, "used-car-parts");
    case UsedCarPartKind =>
      assert page[11..11 + 14] == "used-car-parts";
      ContainsAt(page, "used-car-parts", 11);
  }

  /** `item.imageGallery?.map(img => img.replace(/ /g, '%20')) || []`: every
      path loses its spaces, and decoding gives the stored path back unless
      that path already held a literal `%20`; a missing gallery is empty. */
  function EncodedGallery(gallery: Option<seq<string>>): (r: seq<string>)
    ensures gallery.None? ==> r == []
    ensures gallery.Some? ==> |r| == |gallery.value|
    ensures forall i :: 0 <= i < |r| ==> ' ' !in r[i]
    ensures forall i :: 0 <= i < |r| && !Contains(gallery.value[i], "%20") ==>
      DecodeSpaces(r[i]) == gallery.value[i]
  {
    match gallery
    case None => []
    case Some(paths) =>
      forall i | 0 <= i < |paths| && !Contains(paths[i], "%20")
        ensures DecodeSpaces(EncodeSpaces(paths[i])) == paths[i]
      {
        DecodeEncodeSpaces(paths[i]);
      }
      seq(|paths|, i requires 0 <= i < |paths| => EncodeSpaces(paths[i]))
  }

  /** `item.imageGallery?.map(img => `${bucketUrl}/${img.replace(/ /g, '%20')}`) || []`:
      each path becomes a public URL under the bucket, one per stored path
      and in the same order. */
  function PublicGallery(bucketUrl: string, gallery: Option<seq<string>>): (r: seq<string>)
    ensures |r| == |EncodedGallery(gallery)|
    ensures forall i :: 0 <= i < |r| ==>
      StartsWith(r[i], bucketUrl + "/") && r[i][|bucketUrl| + 1..] == EncodedGallery(gallery)[i]
  {
    var paths := EncodedGallery(gallery);
    var r := seq(|paths|, i requires 0 <= i < |paths| => bucketUrl + "/" + paths[i]);
    assert forall i :: 0 <= i < |r| ==> r[i][..|bucketUrl| + 1] == bucketUrl + "/";
    r
  }
}
