/** The admin dashboard: one tab per inventory kind, the list fetched for
    the active tab (galleries rewritten, then sorted), the filters, and the
    link or ID a user pastes to find one item. */
module AdminDashboard {
  import opened Wrappers
  import opened Strings
  import opened Seqs
  import opened Query
  import opened Items

  /** `/^[0-9a-fA-F-]{36}$/`: the shape of a UUID. */
  predicate IsUuidShape(value: string) {
    |value| == 36 && forall i :: 0 <= i < |value| ==> IsUuidChar(value[i])
  }

  predicate IsUuidChar(ch: char) {
    IsDigit(ch) || ('a' <= ch <= 'f') || ('A' <= ch <= 'F') || ch == '-'
  }

  /** `extractIdFromInput`: nothing for an empty input; for a link holding a
      `?`, the `id` parameter of the text between the first `?` and the next;
      otherwise the input itself if it has the shape of a UUID. */
  function ExtractIdFromInput(value: string): (r: Option<string>)
    ensures value == "" ==> r.None?
    ensures '?' in value ==> |Split(value, '?')| >= 2 && r == GetParam(Split(value, '?')[1], "id")
    ensures '?' !in value ==> (r.Some? <==> IsUuidShape(value)) && (r.Some? ==> r.value == value)
  {
    if value == "" then None
    else if '?' in value then
      SplitHasTwo(value, '?');
      GetParam(Split(value, '?')[1], "id")
    else if IsUuidShape(value) then Some(value)
    else None
  }

  /** The link a card copies: `${origin}/inventory/${segment}?id=${item.id}`. */
  function ShareLink(origin: string, item: Item): string {
    origin + CardUrl(KindOf(item), item.id)
  }

  /** Pasting a card's link back into the filter recovers the item's id,
      provided neither the origin nor the id holds a `?`, and the id holds
      none of `&`, `%` and `+`, which the link does not escape and
      `URLSearchParams` would read as a separator or decode. */
  lemma {:induction false} ShareLinkRoundTrip(origin: string, item: Item)
    requires '?' !in origin && '?' !in item.id && '&' !in item.id
    requires '%' !in item.id && '+' !in item.id
    ensures ExtractIdFromInput(ShareLink(origin, item)) == Some(item.id)
  {
    var segment := KindSegment(KindOf(item));
    var path := origin + "/inventory/" + segment;
    var query := "id=" + item.id;
    assert '?' !in segment by {
      match KindOf(item)
      case CarKind => assert segment == "cars";
      case UsedCarPartKind => assert segment == "used-car-parts";
    }
    CharNotInConcat(origin, "/inventory/", '?');
    CharNotInConcat(origin + "/inventory/", segment, '?');
    assert ShareLink(origin, item) == path + "?id=" + item.id;
    IdFromLink(path, item.id);
  }

  /** Any link without a `?` before `?id=` yields the id after it, when the
      id needs no escaping. */
  lemma IdFromLink(path: string, id: string)
    requires '?' !in path && '?' !in id && '&' !in id
    requires '%' !in id && '+' !in id
    ensures ExtractIdFromInput(path + "?id=" + id) == Some(id)
  {
    var query := "id=" + id;
    var link := path + "?id=" + id;
    CharNotInConcat("id=", id, '?');
    assert link == path + ['?'] + query;
    SplitAtOnly(path, query, '?');
    assert link[|path|] == '?';
    SinglePair("id", id);
    assert "id" + "=" + id == query;
  }

  /** A string with one separator splits into the text before and after it. */
  lemma SplitAtOnly(a: string, b: string, c: char)
    requires c !in a && c !in b
    ensures Split(a + [c] + b, c) == [a, b]
  {
    JoinCons(a, [b], c);
    assert [a] + [b] == [a, b];
    SplitJoin([a, b], c);
  }

  lemma CharNotInConcat(a: string, b: string, ch: char)
    requires ch !in a && ch !in b
    ensures ch !in a + b
  {
  }

  /** `items.find(item => item.id === id)` */
  function FindById(items: seq<Item>, id: string): (r: Option<Item>)
    ensures r.None? <==> forall i :: 0 <= i < |items| ==> items[i].id != id
    ensures r.Some? ==> exists i :: 0 <= i < |items| && items[i] == r.value && r.value.id == id &&
                                   (forall j :: 0 <= j < i ==> items[j].id != id)
    decreases |items|
  {
    if |items| == 0 then None
    else if items[0].id == id then Some(items[0])
    else
      var r := FindById(items[1..], id);
      assert forall i :: 1 <= i < |items| ==> items[i] == items[1..][i - 1];
      if r.Some? then
        var i :| 0 <= i < |items[1..]| && items[1..][i] == r.value && r.value.id == id &&
                 (forall j :: 0 <= j < i ==> items[1..][j].id != id);
        assert forall j :: 0 <= j < i + 1 ==> items[j].id != id;
        r
      else r
  }

  /** The name and price filters: the lower-cased name contains the
      lower-cased name filter, and the price filter is empty or occurs in
      the price's decimal rendering. */
  predicate MatchesFilters(item: Item, nameFilter: string, priceFilter: string) {
    Contains(Lower(item.name), Lower(nameFilter))
    && (priceFilter == "" || Contains(IntToString(item.price), priceFilter))
  }

  /** `filteredItems`: with an ID filter set (and not empty), the first item
      with that id or nothing; otherwise the items matching both filters, in
      their order. */
  function FilteredItems(items: seq<Item>, idFilter: Option<string>, nameFilter: string, priceFilter: string): (r: seq<Item>)
    ensures idFilter.Some? && idFilter.value != "" ==>
      |r| <= 1 && (r == [] <==> forall i :: 0 <= i < |items| ==> items[i].id != idFilter.value)
    ensures idFilter.Some? && idFilter.value != "" && r != [] ==>
      exists i :: 0 <= i < |items| && items[i] == r[0] && r[0].id == idFilter.value &&
                  (forall j :: 0 <= j < i ==> items[j].id != idFilter.value)
    ensures !(idFilter.Some? && idFilter.value != "") ==>
      r == Filter(items, item => MatchesFilters(item, nameFilter, priceFilter))
  {
    if idFilter.Some? && idFilter.value != "" then
      match FindById(items, idFilter.value)
      case Some(item) => [item]
      case None => []
    else Filter(items, item => MatchesFilters(item, nameFilter, priceFilter))
  }

  lemma {:induction false} ContainsEmpty(s: string)
    ensures Contains(s, "")
  {
    assert StartsWith(s, "");
  }

  /** With every filter empty the whole list shows, in order. */
  lemma EmptyFiltersShowAll(items: seq<Item>)
    ensures FilteredItems(items, None, "", "") == items
  {
    forall i | 0 <= i < |items| ensures MatchesFilters(items[i], "", "") {
      ContainsEmpty(Lower(items[i].name));
    }
    FilterKeepsAll(items, item => MatchesFilters(item, "", ""));
  }

  /** The cars order: newest year first, then by name. A `year` the API
      leaves out would compare as `NaN`; the cars list always has one. */
  function CarKey(item: Item): SortKey {
    SortKey(if item.Car? then -item.year else 0, item.name)
  }

  /** The parts order: by name. */
  function PartKey(item: Item): SortKey {
    SortKey(0, item.name)
  }

  /** A list in car order runs from newer to older, names ascending within a year. */
  lemma CarOrder(cars: seq<Item>)
    requires SortedBy(cars, CarKey)
    requires forall i :: 0 <= i < |cars| ==> cars[i].Car?
    ensures forall i, j :: 0 <= i < j < |cars| ==>
      cars[i].year >= cars[j].year && (cars[i].year == cars[j].year ==> LexLe(cars[i].name, cars[j].name))
  {
    forall i, j | 0 <= i < j < |cars|
      ensures cars[i].year >= cars[j].year && (cars[i].year == cars[j].year ==> LexLe(cars[i].name, cars[j].name))
    {
      assert KeyLe(CarKey(cars[i]), CarKey(cars[j]));
    }
  }

  /** A list in part order has its names ascending. */
  lemma PartOrder(parts: seq<Item>)
    requires SortedBy(parts, PartKey)
    ensures forall i, j :: 0 <= i < j < |parts| ==> LexLe(parts[i].name, parts[j].name)
  {
    forall i, j | 0 <= i < j < |parts| ensures LexLe(parts[i].name, parts[j].name) {
      assert KeyLe(PartKey(parts[i]), PartKey(parts[j]));
    }
  }

  /** `{...item, imageGallery: item.imageGallery?.map(encode) || []}` */
  function WithEncodedGallery(item: Item): (r: Item)
    ensures r.imageGallery == Some(EncodedGallery(item.imageGallery))
    ensures r.(imageGallery := item.imageGallery) == item
  {
    item.(imageGallery := Some(EncodedGallery(item.imageGallery)))
  }

  function EncodeGalleries(items: seq<Item>): (r: seq<Item>)
    ensures |r| == |items|
    ensures forall i :: 0 <= i < |r| ==> r[i] == WithEncodedGallery(items[i])
  {
    seq(|items|, i requires 0 <= i < |items| => WithEncodedGallery(items[i]))
  }

  class Dashboard {
    var activeTab: Kind
    var cars: seq<Item>
    var parts: seq<Item>
    var localLoading: bool
    var nameFilter: string
    var priceFilter: string
    var idFilter: Option<string>
    var linkFilterInput: string

    constructor()
      ensures activeTab == CarKind && cars == [] && parts == [] && !localLoading
      ensures nameFilter == "" && priceFilter == "" && idFilter == None && linkFilterInput == ""
    {
      activeTab := CarKind;
      cars := [];
      parts := [];
      localLoading := false;
      nameFilter := "";
      priceFilter := "";
      idFilter := None;
      linkFilterInput := "";
    }

    /** The items the grid shows. */
    function Shown(): seq<Item>
      reads this
    {
      FilteredItems(if activeTab == CarKind then cars else parts, idFilter, nameFilter, priceFilter)
    }

    /** A tab button: switches the tab and clears the ID filter and the link. */
    method SelectTab(tab: Kind)
      modifies this`activeTab, this`idFilter, this`linkFilterInput
      ensures activeTab == tab && idFilter == None && linkFilterInput == ""
    {
      activeTab := tab;
      idFilter := None;
      linkFilterInput := "";
    }

    /** The link field's `onChange`: keeps the text and filters by the id in it. */
    method OnLinkInput(value: string)
      modifies this`linkFilterInput, this`idFilter
      ensures linkFilterInput == value && idFilter == ExtractIdFromInput(value)
    {
      linkFilterInput := value;
      idFilter := ExtractIdFromInput(value);
    }

    method OnNameFilter(value: string)
      modifies this`nameFilter
      ensures nameFilter == value
    {
      nameFilter := value;
    }

    method OnPriceFilter(value: string)
      modifies this`priceFilter
      ensures priceFilter == value
    {
      priceFilter := value;
    }

    /** `fetchData` for the active tab, given the API's answer (`None` when
        the request fails, which leaves both lists as they were). The list is
        stored with its galleries rewritten, in the tab's order. */
    method FetchData(response: Option<seq<Item>>)
      modifies this`cars, this`parts, this`localLoading
      ensures !localLoading
      ensures response.None? ==> cars == old(cars) && parts == old(parts)
      ensures response.Some? && activeTab == CarKind ==>
        cars == SortBy(EncodeGalleries(response.value), CarKey) && parts == old(parts)
      ensures response.Some? && activeTab == UsedCarPartKind ==>
        parts == SortBy(EncodeGalleries(response.value), PartKey) && cars == old(cars)
      ensures SortedBy(cars, CarKey) || cars == old(cars)
      ensures response.Some? && activeTab == CarKind ==> multiset(cars) == multiset(EncodeGalleries(response.value))
    {
      localLoading := true;
      if response.Some? {
        if activeTab == CarKind {
          cars := SortBy(EncodeGalleries(response.value), CarKey);
        } else {
          parts := SortBy(EncodeGalleries(response.value), PartKey);
        }
      }
      localLoading := false;
    }
  }
}
