/** The page server: the CORS origin check of the API routes and the
    metadata the catch-all HTML route puts into each page. */
module PageServer {
  import opened Wrappers
  import opened Strings
  import opened Items

  /** `.replace(/^https?:\/\//, '')` */
  function StripScheme(origin: string): (r: string)
    ensures StartsWith(origin, "https://") ==> r == origin[8..]
    ensures !StartsWith(origin, "https://") && StartsWith(origin, "http://") ==> r == origin[7..]
    ensures !StartsWith(origin, "https://") && !StartsWith(origin, "http://") ==> r == origin
  {
    if StartsWith(origin, "https://") then origin[8..]
    else if StartsWith(origin, "http://") then origin[7..]
    else origin
  }

  /** `.replace(/\/$/, '')`: at most one trailing slash goes. */
  function StripTrailingSlash(s: string): (r: string)
    ensures |s| > 0 && s[|s| - 1] == '/' ==> s == r + "/"
    ensures !(|s| > 0 && s[|s| - 1] == '/') ==> r == s
  {
    if |s| > 0 && s[|s| - 1] == '/' then s[..|s| - 1] else s
  }

  /** `baseDomain`: the configured `ORIGIN` without its scheme and without
      one trailing slash. */
  function BaseDomain(configured: string): string {
    StripTrailingSlash(StripScheme(configured))
  }

  /** `allowedOrigins`: both schemes, with and without `www.`. */
  function AllowedOrigins(base: string): (r: seq<string>)
    ensures |r| == 4
    ensures forall o :: o in r <==>
      o == "https://" + base || o == "https://www." + base || o == "http://" + base || o == "http://www." + base
  {
    ["https://" + base, "https://www." + base, "http://" + base, "http://www." + base]
  }

  /** The `origin` callback: a request without an `Origin` header (or with
      an empty one) passes; otherwise the origin, less one trailing slash,
      must be one of the allowed origins. `false` is the "Not allowed by
      CORS" error. */
  function CorsAllows(allowed: seq<string>, origin: Option<string>): (ok: bool)
    ensures origin.None? || origin == Some("") ==> ok
    ensures origin.Some? && origin.value != "" ==> (ok <==> StripTrailingSlash(origin.value) in allowed)
  {
    match origin
    case None => true
    case Some(o) => o == "" || StripTrailingSlash(o) in allowed
  }

  lemma SchemeStrips(scheme: string, host: string)
    requires scheme == "https://" || scheme == "http://"
    ensures StripScheme(scheme + host) == host
  {
    var s := scheme + host;
    assert s[..|scheme|] == scheme;
    if scheme == "http://" {
      assert s[4] == ':';
      assert !StartsWith(s, "https://") by {
        if |s| >= 8 { assert s[..8][4] == s[4]; }
      }
    }
    assert s[|scheme|..] == host;
  }

  /** Dropping one optional trailing slash from a text that does not end in one. */
  lemma SlashStrips(bare: string, slash: bool)
    requires bare != [] && bare[|bare| - 1] != '/'
    ensures StripTrailingSlash(bare + (if slash then "/" else "")) == bare
  {
    var s := bare + (if slash then "/" else "");
    if slash { assert s[..|s| - 1] == bare; }
    else { assert s == bare; }
  }

  /** The configured origin, with either scheme and either ending, gives its host. */
  lemma ConfiguredBase(scheme: string, host: string, slash: bool)
    requires scheme == "https://" || scheme == "http://"
    requires host != [] && host[|host| - 1] != '/'
    ensures BaseDomain(scheme + host + (if slash then "/" else "")) == host
  {
    var hostSlash := host + (if slash then "/" else "");
    SchemeStrips(scheme, hostSlash);
    assert scheme + host + (if slash then "/" else "") == scheme + hostSlash;
    SlashStrips(host, slash);
  }

  /** A request from the host, with either scheme, `www.` or not and either
      ending, passes the check against the host's list. */
  lemma RequestAllowed(host: string, requestScheme: string, www: bool, requestSlash: bool)
    requires requestScheme == "https://" || requestScheme == "http://"
    requires host != [] && host[|host| - 1] != '/'
    ensures CorsAllows(AllowedOrigins(host),
                       Some(requestScheme + (if www then "www." else "") + host + (if requestSlash then "/" else "")))
  {
    var bare := requestScheme + (if www then "www." else "") + host;
    assert bare[|bare| - 1] == host[|host| - 1];
    SlashStrips(bare, requestSlash);
    assert bare in AllowedOrigins(host) by {
      if www { assert bare == requestScheme + ("www." + host); }
    }
  }

  /** Whether `ORIGIN` is written with either scheme and with or without a
      trailing slash, the site itself, with either scheme, with or without
      `www.` and with or without a trailing slash, passes the check. */
  lemma {:induction false} SiteOriginsAllowed(scheme: string, host: string, slash: bool, requestScheme: string, www: bool, requestSlash: bool)
    requires scheme == "https://" || scheme == "http://"
    requires requestScheme == "https://" || requestScheme == "http://"
    requires host != [] && host[|host| - 1] != '/'
    ensures var configured := scheme + host + (if slash then "/" else "");
      var request := requestScheme + (if www then "www." else "") + host + (if requestSlash then "/" else "");
      BaseDomain(configured) == host && CorsAllows(AllowedOrigins(BaseDomain(configured)), Some(request))
  {
    ConfiguredBase(scheme, host, slash);
    RequestAllowed(host, requestScheme, www, requestSlash);
  }

  /** Any other origin is refused. */
  lemma ForeignOriginRefused(base: string, origin: string)
    requires origin != "" && StripTrailingSlash(origin) !in AllowedOrigins(base)
    ensures !CorsAllows(AllowedOrigins(base), Some(origin))
  {
  }

  /** `if (item.salePrice)`: a sale price of 0 is falsy. */
  predicate SaleIsTruthy(item: Item) {
    item.salePrice.Some? && item.salePrice.value != 0
  }

  /** The closing clause of an item's description. */
  function PriceClause(item: Item): (clause: string)
    ensures SaleIsTruthy(item) ==> clause == "now available for a discounted price of " + IntToString(item.salePrice.value) + " EUR."
    ensures !SaleIsTruthy(item) ==> clause == "priced at " + IntToString(item.price) + " EUR."
  {
    if SaleIsTruthy(item) then "now available for a discounted price of " + IntToString(item.salePrice.value) + " EUR."
    else "priced at " + IntToString(item.price) + " EUR."
  }

  /** A zero sale price is not announced: the description quotes the price. */
  lemma ZeroSaleQuotesPrice(item: Item)
    requires item.salePrice == Some(0)
    ensures PriceClause(item) == "priced at " + IntToString(item.price) + " EUR."
  {
  }

  /** `${car.year}`: every car has a year; `undefined` shows only when the
      car branch is handed a used car part, which has none. */
  function YearText(item: Item): string {
    if item.Car? then IntToString(item.year) else "undefined"
  }

  /** `req.path.split('/')[1] || ''` */
  function FirstSegment(path: string): (segment: string)
    ensures '/' !in segment
    ensures '/' !in path ==> segment == ""
  {
    var pieces := Split(path, '/');
    if |pieces| >= 2 then pieces[1] else ""
  }

  /** The first segment of `/{segment}/...` is that segment. */
  lemma {:induction false} FirstSegmentOf(segment: string, rest: string)
    requires '/' !in segment
    ensures FirstSegment("/" + segment + "/" + rest) == segment
    ensures FirstSegment("/" + segment) == segment
  {
    var tail := Split(rest, '/');
    JoinCons(segment, tail, '/');
    JoinCons("", [segment] + tail, '/');
    assert [""] + ([segment] + tail) == ["", segment] + tail;
    SplitJoin(["", segment] + tail, '/');
    assert "" + ['/'] + (segment + ['/'] + rest) == "/" + segment + "/" + rest;
    JoinCons("", [segment], '/');
    assert [""] + [segment] == ["", segment];
    SplitJoin(["", segment], '/');
    assert "" + ['/'] + segment == "/" + segment;
  }

  /** The default page metadata. */
  const DefaultDescription: string := "Discover the best American muscle cars and parts."

  function DefaultImage(baseUrl: string, staticDir: string): string {
    baseUrl + "/" + staticDir + "/banner.jpg"
  }

  /** The preview image of an item: the first gallery path under the
      public bucket, or `fallback` without a gallery. */
  function ItemImage(s3Base: string, item: Item, fallback: string): (url: string)
    ensures item.imageGallery.Some? && |item.imageGallery.value| > 0 ==>
      url == PublicGallery(s3Base, item.imageGallery)[0]
    ensures !(item.imageGallery.Some? && |item.imageGallery.value| > 0) ==> url == fallback
  {
    if item.imageGallery.Some? && |item.imageGallery.value| > 0 then
      s3Base + "/" + EncodeSpaces(item.imageGallery.value[0])
    else fallback
  }

  /** The page branch chosen from the request path. */
  datatype PageKind = CarPage | PartPage | OtherPage | RootPage

  function PageKindOf(path: string): (k: PageKind)
    ensures k == CarPage <==> StartsWith(path, "/inventory/car")
    ensures k == PartPage <==> !StartsWith(path, "/inventory/car") && StartsWith(path, "/inventory/used-car-part")
    ensures k == RootPage <==> !StartsWith(path, "/inventory/car") && !StartsWith(path, "/inventory/used-car-part") && path == "/"
  {
    if StartsWith(path, "/inventory/car") then CarPage
    else if StartsWith(path, "/inventory/used-car-part") then PartPage
    else if path != "/" then OtherPage
    else RootPage
  }

  /** The list and details pages of both kinds take the item branches. */
  lemma {:induction false} InventoryPagesTakeItemBranches(rest: string)
    ensures PageKindOf("/inventory/cars" + rest) == CarPage
    ensures PageKindOf("/inventory/used-car-parts" + rest) == PartPage
  {
    var c := "/inventory/cars" + rest;
    assert c[..14] == "/inventory/car";
    var p := "/inventory/used-car-parts" + rest;
    assert p[..24] == "/inventory/used-car-part";
    assert p[11] == 'u';
    assert !StartsWith(p, "/inventory/car") by {
      assert p[..14][11] == 'u';
    }
  }

  /** The catch-all route's metadata for `path`. The item fetched for an
      inventory page (`None` when the fetch failed) and the title formatter
      of the SEO helper are parameters. */
  method PageMetadata(path: string, baseUrl: string, staticDir: string, s3Base: string,
                      fetched: Option<Item>, formatTitle: string -> string)
    returns (imageUrl: string, description: string, customTitleSegment: string)
    ensures PageKindOf(path) in {CarPage, PartPage} && fetched.Some? ==>
      imageUrl == ItemImage(s3Base, fetched.value, DefaultImage(baseUrl, staticDir))
    ensures PageKindOf(path) == CarPage && fetched.Some? ==>
      var car := fetched.value;
      description == "Check out the " + car.name + ", " + YearText(car) + " model, " + PriceClause(car)
      && customTitleSegment == car.name + " (" + YearText(car) + ")"
    ensures PageKindOf(path) == PartPage && fetched.Some? ==>
      var part := fetched.value;
      description == "Check out the " + part.name + ", " + PriceClause(part)
      && customTitleSegment == part.name
    ensures PageKindOf(path) == OtherPage ==>
      customTitleSegment == formatTitle(FirstSegment(path))
      && description == "Explore '" + customTitleSegment + "' page on American Muscle Cars."
    ensures PageKindOf(path) == RootPage || (PageKindOf(path) in {CarPage, PartPage} && fetched.None?) ==>
      imageUrl == DefaultImage(baseUrl, staticDir) && description == DefaultDescription && customTitleSegment == ""
    ensures PageKindOf(path) != CarPage && PageKindOf(path) != PartPage ==> imageUrl == DefaultImage(baseUrl, staticDir)
  {
    imageUrl := baseUrl + "/" + staticDir + "/banner.jpg";
    description := "Discover the best American muscle cars and parts.";
    customTitleSegment := "";
    assert imageUrl == DefaultImage(baseUrl, staticDir) && description == DefaultDescription;
    if StartsWith(path, "/inventory/car") {
      if fetched.Some? {
        var car := fetched.value;
        if car.imageGallery.Some? && |car.imageGallery.value| > 0 {
          var cleanPath := EncodeSpaces(car.imageGallery.value[0]);
          imageUrl := s3Base + "/" + cleanPath;
        }
        description := "Check out the " + car.name + ", " + YearText(car) + " model, ";
        if car.salePrice.Some? && car.salePrice.value != 0 {
          description := description + "now available for a discounted price of " + IntToString(car.salePrice.value) + " EUR.";
        } else {
          description := description + "priced at " + IntToString(car.price) + " EUR.";
        }
        customTitleSegment := car.name + " (" + YearText(car) + ")";
        assert imageUrl == ItemImage(s3Base, car, DefaultImage(baseUrl, staticDir));
        assert description == "Check out the " + car.name + ", " + YearText(car) + " model, " + PriceClause(car);
      }
    } else if StartsWith(path, "/inventory/used-car-part") {
      if fetched.Some? {
        var part := fetched.value;
        if part.imageGallery.Some? && |part.imageGallery.value| > 0 {
          var cleanPath := EncodeSpaces(part.imageGallery.value[0]);
          imageUrl := s3Base + "/" + cleanPath;
        }
        description := "Check out the " + part.name + ", ";
        if part.salePrice.Some? && part.salePrice.value != 0 {
          description := description + "now available for a discounted price of " + IntToString(part.salePrice.value) + " EUR.";
        } else {
          description := description + "priced at " + IntToString(part.price) + " EUR.";
        }
        customTitleSegment := part.name;
        assert imageUrl == ItemImage(s3Base, part, DefaultImage(baseUrl, staticDir));
        assert description == "Check out the " + part.name + ", " + PriceClause(part);
      }
    } else if path != "/" {
      var formattedTitle := formatTitle(FirstSegment(path));
      description := "Explore '" + formattedTitle + "' page on American Muscle Cars.";
      customTitleSegment := formattedTitle;
    }
  }
}
