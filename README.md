# American Muscle Cars storefront and admin: a Dafny model

This project models the logic of a storefront for classic American cars and
used car parts, together with its admin area. It covers the following parts
of the React front end and its Express page server:

- **Session provider.** It holds the JWT of the signed-in admin in browser
  storage and reads the token's claims. It also refreshes the token on a
  five-second tick and logs the user out, choosing the action from the
  current route.
- **Admin login page.** It checks the form, stores the token and redirects
  the user by role.
- **Admin dashboard.** It fetches and sorts the car or parts list and
  rewrites the image paths. It filters the list by a pasted link or UUID,
  by name and by price, and builds the share link of each card.
- **Edit dialogs for a car and a used car part, and the create dialog for
  a used car part.** They cover:
  - the form state;
  - the discount preview shown while typing a sale price;
  - the payload sent to the API.
- **Image gallery dialog.** It covers:
  - fetching the images;
  - upload and delete requests;
  - moving an image by drag and drop;
  - saving the new order.
- **Public inventory pages.** The list page:
  - picks its endpoint from the path;
  - points gallery paths at the public bucket;
  - lists items that are in stock or reserved before sold items, each group
    in random order;
  - draws badges, overlays and price lines.

  The details page covers:
  - the `id` parameter and the guard on fetching;
  - the pricing block and the stock label;
  - the share URL.
- **Page server.** It covers:
  - the CORS origin check;
  - the preview metadata (image, description, title segment) that it puts
    into each HTML page it serves.

## How the model is organised

Pure computations are functions with named results. Components that keep
state are classes with one field per piece of React state. Their handlers
are methods whose `modifies` clauses name exactly the state that handler
sets.

The HTTP answers are method parameters:
- `Exchange` models the login and refresh answers;
- an `Option` models the fetched item or list;
- a flag says whether an upload succeeded.

Other inputs from the outside world are parameters too:
- the clock is `now` (milliseconds);
- `jwtDecode` is a function `decode` that gives `None` where it would throw;
- the browser origin and the configured URLs are strings.

The modules are:

- **`Items`**
  - The item records.
  - The two kinds of item, their URL segment and their card URL.
  - The `%20` encoding of image paths.
- **`Session`**
  - The token, its decoding and the logout policy.
  - The refresh plan and the tick.
  - The `SessionProvider` class.
- **`AdminLogin`**
  - Form validity and the role redirect.
  - The `LoginPage` class.
- **`AdminDashboard`**
  - Reading the id from the link filter.
  - The filters, the sort keys and the share link.
  - The `Dashboard` class.
- **`DialogForms`**
  - Form values.
  - `Number(...)` on integer numerals.
  - The discount preview and the edit payload.
- **`EditCar`, `EditUsedCarPart`, `CreateUsedCarPart`**
  - One class per dialog.
- **`ImageGallery`**
  - The request parameters and the drag move.
  - The `GalleryDialog` class.
- **`Inventory`, `InventoryDetails`**
  - The two public pages.
- **`PageServer`**
  - The CORS check and the page metadata.
- **`Query`**
  - The `URLSearchParams.get` lookup.
- **`Strings`, `Seqs`, `Wrappers`**
  - String and sequence functions used throughout: split and join, trim,
    lower case, number formatting, filter and sort.

Numbers are JavaScript Numbers restricted to integers, plus `NaN` (`JsNumber`).

### Where the behaviour differs from the design description

In each case below the model follows the code.

- **Second logout on an admin page.** Logging out twice on a page below
  `/admin/` navigates to `/admin` both times. This is because the route
  check does not depend on whether a token was present (`Session.LogoutTwice`).
- **Token at the instant of expiry.**
  - A token whose `exp * 1000` equals the current time still decodes: the
    getters return its claims.
  - The tick at that same instant computes `timeLeft = 0` and logs out
    (`Session.TickLogsOutAtExpiry`).
  - An `exp` of 0 counts as "no expiry", so it is logged out as well.
- **Token without an expiry.** A token with no `exp` claim is never expired
  for the getters, because `NaN < now` is false. The tick reads the missing
  `exp` as falsy and logs out at once (`Session.TokenWithoutExpiry`).
- **Refresh answer without a token.** When a refresh answer carries no
  token, the text `"undefined"` is stored as the new token (`Session.IssuedText`).

## Model

| member | source | states |
|---|---|---|
| Session.DecodeToken | src/ui/context/SessionContext.tsx:46-61 | claims come back exactly when a non-empty token is stored, it decodes, and it has no `exp` or has not expired strictly before now; they are the decoded claims |
| Session.ExpiryBoundary | src/ui/context/SessionContext.tsx:50-61 | a token with an `exp` still decodes at the millisecond `exp*1000` and no longer one millisecond later |
| Session.LogoutAction | src/ui/context/SessionContext.tsx:69-96 | reload iff a token was present on a member-area page; navigate iff the path is under `/admin/`, and then always to `/admin`; otherwise nothing |
| Session.AdminAreaIsApart | src/ui/context/SessionContext.tsx:74-92 | an admin sub-page is neither `/admin` itself nor in the member area, so the two route branches never overlap |
| Session.PlanRefresh | src/ui/context/SessionContext.tsx:102-112 | skip iff no token; call the refresh endpoint iff the token decodes and is unexpired, with that token as bearer; log out otherwise |
| Session.Tick | src/ui/context/SessionContext.tsx:155-172 | refresh iff the token decodes with an `exp` that is present, non-zero and still in the future; a refreshing tick always leads to a refresh call |
| Session.TickLogsOutAtExpiry | src/ui/context/SessionContext.tsx:155-172 | at the exact expiry instant the getters still see the claims but the tick logs out |
| Session.TokenWithoutExpiry | src/ui/context/SessionContext.tsx:50-172 | a token without `exp` always decodes and is refreshed by `refresh`, yet every tick logs it out |
| Session.SessionProvider.constructor | src/ui/context/SessionContext.tsx:63-67 | the provider starts over whatever the storage slot holds |
| Session.SessionProvider.GetToken | src/ui/context/SessionContext.tsx:134 | the stored slot, as is |
| Session.SessionProvider.GetUserId | src/ui/context/SessionContext.tsx:136-139 | a user id iff the token decodes unexpired, and then the `sub` claim |
| Session.SessionProvider.GetRole | src/ui/context/SessionContext.tsx:141-144 | a role iff the token decodes unexpired, and then the `role` claim |
| Session.SessionProvider.GetExp | src/ui/context/SessionContext.tsx:146-149 | an expiry iff the token decodes unexpired and carries an `exp`, and then that `exp`, with `exp*1000 >= now` |
| Session.SessionProvider.GetAuthHeaders | src/ui/context/SessionContext.tsx:129-132 | an `Authorization: Bearer <token>` header iff a non-empty token is stored, else no header |
| Session.SessionProvider.SetJwtToken | src/ui/context/SessionContext.tsx:98-100 | the slot holds the given token |
| Session.SessionProvider.Logout | src/ui/context/SessionContext.tsx:69-96 | the slot is cleared and the action is the route policy applied to whether a token was present |
| Session.SessionProvider.Refresh | src/ui/context/SessionContext.tsx:102-127 | per plan: unchanged when skipped; logged out when the token is dead; the issued token stored or logged out on rejection when the endpoint is called |
| Session.SessionProvider.CheckSession | src/ui/context/SessionContext.tsx:155-172 | a logging-out tick clears the slot with the route action; a refreshing tick sends the stored token and stores the answer or logs out |
| Session.LogoutTwice | src/ui/context/SessionContext.tsx:69-96 | a second logout finds no token, so it never reloads, yet still navigates on an admin page |
| Session.ExpiredTokenOnAdminPage | src/ui/context/SessionContext.tsx:155-172 | an expired token on an admin page ends with the slot cleared and a navigation to `/admin` |
| Session.LiveTokenRefreshed | src/ui/context/SessionContext.tsx:102-127 | a live token is sent as bearer and replaced by the issued one |
| Session.RejectedRefreshOnMemberPage | src/ui/context/SessionContext.tsx:102-127 | a rejected refresh on a member page clears the slot and reloads |
| Session.LogoutWithoutTokenOnMemberPage | src/ui/context/SessionContext.tsx:69-96 | with no token a member page is left alone |
| AdminLogin.FormValidIffVisible | src/ui/pages/admin/AdminLoginPage.tsx:63 | the form is valid iff both username and password hold a non-white-space character |
| AdminLogin.RoleToPath | src/ui/pages/admin/AdminLoginPage.tsx:41-46 | `/admin/dashboard` iff the role is `ADMIN`, otherwise `/admin` |
| AdminLogin.AdminTokenRedirects | src/ui/pages/admin/AdminLoginPage.tsx:38-47 | a stored token leads to the dashboard iff it decodes, carries role `ADMIN` and has no `exp` or an unexpired one |
| AdminLogin.LoginPage.constructor | src/ui/pages/admin/AdminLoginPage.tsx:15-17 | empty fields, not loading |
| AdminLogin.LoginPage.HandleSubmit | src/ui/pages/admin/AdminLoginPage.tsx:25-54 | fails iff the login is rejected or the answer has no token, then the slot is untouched; otherwise the token is stored and the redirect follows its role; loading ends either way |
| AdminDashboard.ExtractIdFromInput | src/ui/pages/admin/AdminDashboardPage.tsx:65-83 | empty input gives nothing; a link with `?` gives the `id` parameter of the text after its first `?`; otherwise the input itself iff it is 36 hex digits or dashes |
| AdminDashboard.ShareLinkRoundTrip | src/ui/pages/admin/AdminDashboardPage.tsx:264-266 | pasting a card's share link into the link filter recovers that item's id, for ids holding none of `?`, `&`, `%` and `+`, which the link leaves unescaped |
| AdminDashboard.FindById | src/ui/pages/admin/AdminDashboardPage.tsx:130 | nothing iff no item has the id; otherwise the first item that has it |
| AdminDashboard.FilteredItems | src/ui/pages/admin/AdminDashboardPage.tsx:128-144 | with an id filter: at most one item, empty iff no item has the id, else the first one with it; without: exactly the items matching name (case-insensitive) and price text, in order |
| AdminDashboard.EmptyFiltersShowAll | src/ui/pages/admin/AdminDashboardPage.tsx:128-144 | with no filters set the dashboard shows every item in order |
| AdminDashboard.CarOrder | src/ui/pages/admin/AdminDashboardPage.tsx:98 | a list sorted by the car key runs from newer to older years, names ascending within a year |
| AdminDashboard.PartOrder | src/ui/pages/admin/AdminDashboardPage.tsx:110 | a list sorted by the part key has ascending names |
| AdminDashboard.WithEncodedGallery | src/ui/pages/admin/AdminDashboardPage.tsx:94-97 | only the gallery changes, to its `%20`-encoded paths (empty when missing) |
| AdminDashboard.EncodeGalleries | src/ui/pages/admin/AdminDashboardPage.tsx:94-97 | every item, in order, with its gallery encoded |
| AdminDashboard.Dashboard.constructor | src/ui/pages/admin/AdminDashboardPage.tsx:36-52 | cars tab, empty lists and filters, no id filter |
| AdminDashboard.Dashboard.SelectTab | src/ui/pages/admin/AdminDashboardPage.tsx:190-194 | the tab is set and the id filter and link input are cleared |
| AdminDashboard.Dashboard.OnLinkInput | src/ui/pages/admin/AdminDashboardPage.tsx:209-213 | the input is kept and the id filter is the id read from it |
| AdminDashboard.Dashboard.OnNameFilter | src/ui/pages/admin/AdminDashboardPage.tsx:128-144 | the name filter is the typed text |
| AdminDashboard.Dashboard.OnPriceFilter | src/ui/pages/admin/AdminDashboardPage.tsx:128-144 | the price filter is the typed text |
| AdminDashboard.Dashboard.FetchData | src/ui/pages/admin/AdminDashboardPage.tsx:87-118 | the active tab's list becomes the fetched items with encoded galleries sorted by that tab's key (a permutation of them); the other list is untouched; a failed fetch changes nothing; loading ends |
| DialogForms.ParseRendered | src/ui/dialogs/car/EditCarDialog.tsx:89-90 | `Number` of a rendered integer gives that integer back |
| DialogForms.SaleFromText | src/ui/dialogs/car/EditCarDialog.tsx:155-158 | the sale input is empty iff the field text is empty; otherwise it is `Number` of the text, so a typed integer numeral is entered as that integer |
| DialogForms.SaleFromItem | src/ui/dialogs/car/EditCarDialog.tsx:39-42 | a sale price is entered iff the item has one, and it is that price |
| DialogForms.RoundedPercent | src/ui/dialogs/car/EditCarDialog.tsx:68-73 | the integer nearest to the percentage saved, with halves rounded up |
| DialogForms.PreviewDiscount | src/ui/dialogs/car/EditCarDialog.tsx:68-73 | no preview iff the sale is empty, the price is not positive, or the sale is not below the price; `NaN` iff a side is `NaN`; a sale between 0 and the price gives a percentage from 0 to 100 |
| DialogForms.PreviewIsNearestPercent | src/ui/dialogs/car/EditCarDialog.tsx:68-73 | a numeric preview comes from a positive price and a lower sale and is the nearest whole percentage |
| DialogForms.WithField | src/ui/dialogs/car/EditCarDialog.tsx:75-77 | the named field is set to the typed text; every other field is unchanged |
| DialogForms.RetypedNumberUnchanged | src/ui/dialogs/car/EditCarDialog.tsx:75-90 | retyping a numeric field's shown value leaves the submitted number unchanged |
| DialogForms.FormOf | src/ui/dialogs/car/EditCarDialog.tsx:25 | the form has exactly the item's keys (the sellable fields, the optional sale price, discount and gallery when present, and the car's or part's own fields), each holding the item's value |
| DialogForms.EditPayload | src/ui/dialogs/car/EditCarDialog.tsx:85-92 | no id, gallery or discount; numeric fields through `Number`; a sale price iff one was entered; every other field copied; the key set is exactly the form's less the dropped keys, plus the numeric fields and the entered sale price |
| EditCar.EditCarDialog.constructor | src/ui/dialogs/car/EditCarDialog.tsx:25-31 | the form is the car; no sale price; not loading |
| EditCar.EditCarDialog.OnCarProp | src/ui/dialogs/car/EditCarDialog.tsx:39-42 | the form and sale price reset to the car's, so the preview is the car's own discount |
| EditCar.EditCarDialog.HandleChange | src/ui/dialogs/car/EditCarDialog.tsx:75-77 | the form gets the typed field |
| EditCar.EditCarDialog.OnSalePriceChange | src/ui/dialogs/car/EditCarDialog.tsx:155-158 | the sale input is empty or the typed number |
| EditCar.EditCarDialog.HandleSubmit | src/ui/dialogs/car/EditCarDialog.tsx:81-109 | the request goes to `/cars/{id}` with the edit payload (price and year numeric); loading ends |
| EditCar.UneditedCarSubmitsItsValues | src/ui/dialogs/car/EditCarDialog.tsx:39-94 | saving an untouched car sends its own name, stock, engine, gear type, gas type, price, year and sale price to `/cars/{its id}` |
| EditCar.UneditedCarPayloadKeys | src/ui/dialogs/car/EditCarDialog.tsx:85-92 | an untouched car's payload has exactly name, stock, price, year, engine, gear type and gas type, plus the sale price iff the car has one |
| EditUsedCarPart.EditPartDialog.constructor | src/ui/dialogs/used-car-part/EditUsedCarPartDialog.tsx:30-33 | the form is the part; no sale price; not loading |
| EditUsedCarPart.EditPartDialog.OnPartProp | src/ui/dialogs/used-car-part/EditUsedCarPartDialog.tsx:41-44 | the form and sale price reset to the part's, so the preview is the part's own discount |
| EditUsedCarPart.EditPartDialog.HandleChange | src/ui/dialogs/used-car-part/EditUsedCarPartDialog.tsx:62-64 | the form gets the typed field |
| EditUsedCarPart.EditPartDialog.OnSalePriceChange | src/ui/dialogs/used-car-part/EditUsedCarPartDialog.tsx:142-145 | the sale input is empty or the typed number |
| EditUsedCarPart.EditPartDialog.HandleSubmit | src/ui/dialogs/used-car-part/EditUsedCarPartDialog.tsx:68-95 | the request goes to `/used-car-parts/{id}` with the edit payload (price numeric); loading ends |
| EditUsedCarPart.UneditedPartSubmitsItsValues | src/ui/dialogs/used-car-part/EditUsedCarPartDialog.tsx:41-80 | saving an untouched part sends its own name, stock, description, price and sale price to `/used-car-parts/{its id}` |
| EditUsedCarPart.UneditedPartPayloadKeys | src/ui/dialogs/used-car-part/EditUsedCarPartDialog.tsx:72-78 | an untouched part's payload has exactly name, stock, price and description, plus the sale price iff the part has one |
| CreateUsedCarPart.InitialPreviewIsNull | src/ui/dialogs/used-car-part/CreateUsedCarPartDialog.tsx:28-69 | before a price is typed no sale price shows a discount |
| CreateUsedCarPart.CreatePayload | src/ui/dialogs/used-car-part/CreateUsedCarPartDialog.tsx:81-87 | name, description and stock copied; price through `Number`; a sale price iff one was entered; nothing else |
| CreateUsedCarPart.EditsKeepPayloadShape | src/ui/dialogs/used-car-part/CreateUsedCarPartDialog.tsx:71-87 | after any edit the payload still has exactly the fixed fields, plus the sale price iff one was entered |
| CreateUsedCarPart.CreatePartDialog.constructor | src/ui/dialogs/used-car-part/CreateUsedCarPartDialog.tsx:28-36 | the initial form; no sale price; not loading |
| CreateUsedCarPart.CreatePartDialog.HandleChange | src/ui/dialogs/used-car-part/CreateUsedCarPartDialog.tsx:71-73 | the form gets the typed field |
| CreateUsedCarPart.CreatePartDialog.OnSalePriceChange | src/ui/dialogs/used-car-part/CreateUsedCarPartDialog.tsx:149-152 | the sale input is empty or the typed number |
| CreateUsedCarPart.CreatePartDialog.HandleSubmit | src/ui/dialogs/used-car-part/CreateUsedCarPartDialog.tsx:77-101 | the request goes to `/used-car-parts` with the create payload; loading ends |
| ImageGallery.IdParam | src/ui/dialogs/image/ImageGalleryDialog.tsx:51 | `carId` iff a car, `usedCarPartId` iff a part |
| ImageGallery.EntityPath | src/ui/dialogs/image/ImageGalleryDialog.tsx:52 | `cars` iff a car, `used-car-parts` iff a part: the same segment as the kind's inventory pages |
| ImageGallery.MoveItem | src/ui/dialogs/image/ImageGalleryDialog.tsx:141-147 | the same images rearranged: the dragged one sits at its landing index and the others keep their relative order |
| ImageGallery.FileNamesOnly | src/ui/dialogs/image/ImageGalleryDialog.tsx:121-124 | one name per image, in order, each free of `/` and with every `%20` turned into a space, so no `%20` is left |
| ImageGallery.ReorderNamesReencode | src/ui/dialogs/image/ImageGalleryDialog.tsx:121-124 | the i-th name sent is the decoding of the i-th image's last path segment: encoding it again gives that segment back whenever the segment holds no raw space |
| ImageGallery.ReorderSendsStoredNames | src/ui/dialogs/image/ImageGalleryDialog.tsx:121-124 | for paths without `%20` each name sent is the last path segment |
| ImageGallery.DeleteFileName | src/ui/dialogs/image/ImageGalleryDialog.tsx:103 | the file name is the slash-free tail of the path, cut at the last `/` |
| ImageGallery.GalleryDialog.constructor | src/ui/dialogs/image/ImageGalleryDialog.tsx:43-49 | no entity, no images or files, nothing in progress |
| ImageGallery.GalleryDialog.FetchImages | src/ui/dialogs/image/ImageGalleryDialog.tsx:54-67 | a fetched entity and its gallery are kept; a failed fetch keeps the old ones; loading ends |
| ImageGallery.GalleryDialog.OnDragEnd | src/ui/dialogs/image/ImageGalleryDialog.tsx:141-147 | a drop outside the list changes nothing; otherwise the images are the moved list |
| ImageGallery.GalleryDialog.HandleUpload | src/ui/dialogs/image/ImageGalleryDialog.tsx:77-98 | a request iff files are selected and an entity is loaded, to the kind's upload URL; success clears the files and resets the box |
| ImageGallery.GalleryDialog.HandleDelete | src/ui/dialogs/image/ImageGalleryDialog.tsx:100-116 | the delete URL carries the kind's id parameter and the file name; nothing stays marked as deleting |
| ImageGallery.GalleryDialog.HandleReorder | src/ui/dialogs/image/ImageGalleryDialog.tsx:118-139 | sends the file names of the current images in order; loading ends |
| Items.KindSegment | src/ui/pages/admin/AdminDashboardPage.tsx:264-266 | the segment is `cars` or `used-car-parts` |
| Items.EndpointOfKindPage | src/ui/pages/user/InventoryDetailsPage.tsx:31 | a kind's inventory page resolves to that kind's endpoint |
| Items.EncodedGallery | src/ui/pages/user/InventoryPage.tsx:42-48 | one entry per image, no spaces left, and for paths without a literal `%20` decoding gives the original path back |
| Items.PublicGallery | src/ui/pages/user/InventoryPage.tsx:42-48 | every entry is the bucket URL, a slash and the encoded path |
| Inventory.ListEndpointIgnoresSlashes | src/ui/pages/user/InventoryPage.tsx:25-26 | stripping leading slashes never changes the endpoint; it is parts iff the path mentions `used-car-parts` |
| Inventory.WithPublicGallery | src/ui/pages/user/InventoryPage.tsx:42-48 | only the gallery changes, to its public URLs |
| Inventory.Cleaned | src/ui/pages/user/InventoryPage.tsx:42-48 | every item, in order, with public gallery URLs |
| Inventory.AvailableNotSold | src/ui/pages/user/InventoryPage.tsx:57-62 | the available and sold groups are disjoint |
| Inventory.Listing | src/ui/pages/user/InventoryPage.tsx:50-64 | no sold item precedes an unsold one; exactly the listed items appear, each as often as in the fetched list |
| Inventory.ComingSoonIsHidden | src/ui/pages/user/InventoryPage.tsx:57-62 | a `Coming Soon` item never reaches the list |
| Inventory.OverlayOf | src/ui/pages/user/InventoryPage.tsx:141-144 | the sold overlay iff the stock is `No`, the reserved overlay iff `Reserved` |
| Inventory.CardPrice | src/ui/pages/user/InventoryPage.tsx:117-187 | a sale line iff a sale price exists, showing the price struck through and the sale price; else the plain price |
| Inventory.BadgeOnlyOnUnsoldSales | src/ui/pages/user/InventoryPage.tsx:134-144 | a card with a discount badge is not sold and shows a sale line |
| InventoryDetails.CardOpensItsItem | src/ui/pages/user/InventoryPage.tsx:70-72 | following a card opens the details page on its kind's endpoint and fetches its id, for a non-empty id holding none of `&`, `%` and `+` |
| InventoryDetails.PricingOf | src/ui/pages/user/InventoryDetailsPage.tsx:68-84 | a discount iff an item with a sale price; the original is the price or 0; the discounted price and the discount come from the item |
| InventoryDetails.BadgeMeansSaving | src/ui/pages/user/InventoryDetailsPage.tsx:68-84 | an item badged on the list shows a discount with its percentage on the details page |
| InventoryDetails.StockBadgeOf | src/ui/pages/user/InventoryDetailsPage.tsx:226-238 | `No` reads Sold in red, `Coming Soon` in orange, anything else Available in green |
| InventoryDetails.SoldAgreesWithList | src/ui/pages/user/InventoryDetailsPage.tsx:226-238 | the details page says Sold iff the list shows the sold overlay; a reserved item reads Available |
| InventoryDetails.ShareUrlFindsItemInDashboard | src/ui/pages/user/InventoryDetailsPage.tsx:99 | the public share URL pasted into the dashboard filter finds the item's id, for ids holding none of `?`, `&`, `%` and `+` |
| PageServer.StripScheme | src/backend/server.ts:26-28 | an `https://` or `http://` prefix is removed, anything else is kept |
| PageServer.StripTrailingSlash | src/backend/server.ts:29 | one trailing slash is removed, if there is one |
| PageServer.AllowedOrigins | src/backend/server.ts:31-36 | an origin is allowed iff it is the base domain with either scheme, with or without `www.` |
| PageServer.CorsAllows | src/backend/server.ts:42-53 | a missing or empty origin passes; any other passes iff, without a trailing slash, it is allowed |
| PageServer.SchemeStrips | src/backend/server.ts:26-28 | the host behind either scheme is what remains |
| PageServer.ConfiguredBase | src/backend/server.ts:26-29 | the configured origin, with either scheme and with or without a trailing slash, gives its bare host |
| PageServer.RequestAllowed | src/backend/server.ts:31-53 | a request from the host with either scheme, with or without `www.` and a trailing slash, is accepted |
| PageServer.SiteOriginsAllowed | src/backend/server.ts:26-53 | the site's own origin is accepted with either scheme, `www.` and slash, whatever form the configured origin takes |
| PageServer.ForeignOriginRefused | src/backend/server.ts:42-53 | an origin outside the list is refused |
| PageServer.PriceClause | src/backend/server.ts:160-180 | the discounted price when the sale price is truthy, the regular price otherwise |
| PageServer.ZeroSaleQuotesPrice | src/backend/server.ts:160-164 | a sale price of 0 quotes the regular price |
| PageServer.FirstSegment | src/backend/server.ts:184 | the first path segment, slash-free, empty for a path without `/` |
| PageServer.FirstSegmentOf | src/backend/server.ts:184 | `/segment/...` and `/segment` give `segment` |
| PageServer.ItemImage | src/backend/server.ts:155-174 | the first gallery image under the public bucket, or the default banner |
| PageServer.PageKindOf | src/backend/server.ts:151-183 | the car branch iff the path starts with `/inventory/car`, the part branch iff not that but `/inventory/used-car-part`, the root iff `/` |
| PageServer.InventoryPagesTakeItemBranches | src/backend/server.ts:151-167 | the car and part inventory pages take their item branches |
| PageServer.PageMetadata | src/backend/server.ts:142-187 | per branch: an item's image, description and title; `Explore '...'` with the formatted first segment on other pages; the defaults on the root or when no item was fetched |
| Query.PairOf | src/ui/pages/admin/AdminDashboardPage.tsx:74-75 | a pair `name=value` reads back as that name and value, even with `=` in the value |
| Query.FirstValue | src/ui/pages/admin/AdminDashboardPage.tsx:74-75 | nothing iff no pair has the name; otherwise the value of the first pair that has it |
| Query.SinglePair | src/ui/pages/user/InventoryDetailsPage.tsx:27-28 | a query of one pair gives that pair's value for its name, when neither holds a separator or a `%` or `+` that would be decoded |
| Strings.StripLeadingSlashes | src/ui/pages/user/InventoryPage.tsx:25 | a suffix not starting with `/`, and only slashes removed |
| Strings.Split | src/ui/pages/admin/AdminDashboardPage.tsx:73 | at least one part, none holds the separator, and joining them gives the text back |
| Strings.SplitJoin | src/ui/dialogs/image/ImageGalleryDialog.tsx:103 | splitting a join of separator-free parts gives the parts back |
| Strings.LastPieceOfJoin | src/ui/dialogs/image/ImageGalleryDialog.tsx:103 | the last piece of a joined path is its last part |
| Strings.DecodeEncodeSpaces | src/ui/pages/user/InventoryPage.tsx:46 | encoding spaces as `%20` loses nothing for paths that hold no `%20` |
| Strings.DecodedHasNoCode | src/ui/dialogs/image/ImageGalleryDialog.tsx:123 | one left-to-right pass of `replace(/%20/g, ' ')` leaves no `%20` in its result |
| Strings.EncodeDecodeSpaces | src/ui/dialogs/image/ImageGalleryDialog.tsx:123 | encoding spaces undoes decoding `%20` for every text without a raw space |
| Strings.Trim | src/ui/pages/admin/AdminLoginPage.tsx:63 | empty iff the text is all white space; otherwise neither end is white space; trimmed text is unchanged |
| Strings.LexLeTotal | src/ui/pages/admin/AdminDashboardPage.tsx:98-110 | any two names are ordered one way or the other |
| Strings.LexLeTransitive | src/ui/pages/admin/AdminDashboardPage.tsx:98-110 | the name order is transitive |
| Strings.IntToString | src/ui/pages/admin/AdminDashboardPage.tsx:140 | a non-empty numeral, led by `-` iff negative |
| Seqs.Filter | src/ui/pages/admin/AdminDashboardPage.tsx:134-143 | every occurrence of each element that passes the test and nothing else, in the original order (a subsequence) |
| Seqs.SortBy | src/ui/pages/admin/AdminDashboardPage.tsx:98-110 | sorted by the key and a permutation of the input |

## Left out

- HTTP calls, notifications and the global loading overlay are not modelled. Each answer is a parameter, and only the state the page keeps from it is modelled.
- Timers are not modelled: the five-second interval and the login page's fade-in delay. A tick reads the clock once, as the `now` parameter.
- Two refreshes in flight at the same time can interleave. The model runs each handler to completion.
- Prices and years are integers. Fractional Numbers, exponent notation, hexadecimal and `Infinity` numerals are not modelled.
- Session.SessionProvider.Logout: the page navigation and reload are returned as an `Action` rather than performed.
- DialogForms.ParseNumber: accepts only optional white space, an optional sign and decimal digits. Every other text gives `NaN`, even where `Number` would accept it.
- DialogForms.RoundedPercent: computes `Math.round` exactly on integers. Floating-point rounding of the quotient is not modelled.
- Query.GetParam: percent-decoding and `+` as a space are not modelled. A query is read as `&`-separated pairs, each cut at its first `=`.
- AdminDashboard.ShareLinkRoundTrip, InventoryDetails.CardOpensItsItem, InventoryDetails.ShareUrlFindsItemInDashboard and Query.SinglePair: stated only for ids and values holding no `%` or `+`. The link does not escape the id, and `URLSearchParams` would decode those characters.
- Items.EncodedGallery: the round trip is stated only for paths without a literal `%20`, which decoding would turn into a space.
- Session.Claims: an `exp` is an integer number of seconds when present. A fractional NumericDate is not modelled. A missing `sub` or `role` is not modelled either.
- Session.SessionProvider.GetExp: `None` stands both for no live token, where `getExp` returns `null`, and for a live token without `exp`, where it returns `undefined`.
- Session.Claims: `None` stands for a missing `exp` only, which compares as `NaN` and never expires. A claim `exp: null` is modelled as `Some(0)`: `null * 1000` is 0, so the token is expired for any positive clock, and `null` is falsy, so the tick logs out. For a clock at or before the epoch, `getExp` would return `null` where the model gives `Some(0)`.
- Strings.LexLe stands for `localeCompare` and is ordinal character order, not locale collation.
- Seqs.SortBy: the stability of `Array.prototype.sort` is not modelled. It is an insertion sort with the same keys.
- Strings.Lower: lower-cases ASCII letters only.
- Inventory.Listing: the price-weighted random shuffle is an arbitrary permutation, given as a parameter. Only the fact that it keeps the multiset is assumed of it.
- AdminDashboard.CarKey: a missing year, which compares as `NaN` in JavaScript, is not modelled. Every car has a year.
- AdminLogin.RoleToPath: inherited object keys are not modelled. A role named like an `Object.prototype` member, such as `constructor`, would look up that member in JavaScript.
- ImageGallery.GalleryDialog.FetchImages: a missing gallery is kept as an empty list. In the source the state becomes `undefined`.
- ImageGallery.GalleryDialog.OnDragEnd: the drag library's source index is assumed to lie inside the list, as that library guarantees.
- The page server's title formatting and HTML rendering (`SeoHelper`) are not modelled. `formatTitle` is a parameter.
- The page server's item fetch is not modelled. The fetched item is a parameter.
- The page server's robots and maintenance routes are not modelled.
- The delete dialogs for cars and parts are not modelled.
- The stock, gear and gas option lists that the dialogs load are not modelled.
- `ImageUploadBox`, `ImageSection`, `SocialShare` and the layouts are presentational and not modelled.
- `used-car-part.ts`, the interface of a used car part, is not part of this model. Its fields are taken from the way the dialogs and pages use them.
