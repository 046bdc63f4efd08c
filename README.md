# Restaurant order tool — a Dafny model

This project models the core of a small restaurant ordering application.
Staff pick dishes from a fixed menu into a cart and save the order for a
guest and room. A server keeps the orders in memory behind a shared
passphrase. An order list page searches, colours and exports those orders.

The modules follow the program's files:

- `Common` (common.dfy) holds an `Option` type and the subsequence and distinctness predicates.
- `Text` (text.dfy) holds the JavaScript string operations used: ASCII `toLowerCase`, `includes`, `join`, decimal rendering, `slice(-k)` and `padStart`.
- `Menu` (menu.dfy) covers shared/menu.ts:
  - the catalog `RESTO_VERSION_MENU` and its eight ordered categories;
  - `groupMenuByCategory`, as a method with the source's dictionary-filling loop, proved against the function `GroupsFor`.
- `Payload` (payload.dfy) is the create-order request body shared by the menu page and the server.
- `Cart` (cart.dfy) covers client/pages/Menu.tsx:
  - the pure cart updaters, the cart total, the menu filter, the category toggle and the save validation;
  - the class `MenuPage`, holding the page state that those updaters replace.
- `OrderStore` (store.dfy) covers server/index.ts:
  - the `requireAuth` check and `makeOrderNo`;
  - the class `Server`, holding `ordersStore` and `orderItemsStore` as maps plus the Map's key order, with one method per order route;
  - the route-independent pieces: totals, filters, the newest-first sort and the CSV lines.
- `OrdersPage` (orders_page.dfy) covers client/pages/Orders.tsx: the search filter, `getStatusColor`, the list query parameters and the export guard.

Orders are values (`datatype Order`) stored in the server's maps. An in-place
field assignment in a route is modelled as storing the changed value under the
same key. The store invariant `StoreInvariant` says:

- the key list has no repeats and matches the map's keys;
- both maps have the same keys;
- every order is filed under its own id;
- an order's total is the sum over its stored lines, and every line points back to its order;
- an order's history starts with its "Created" entry.

Every state-changing route keeps that invariant.

Generated values are parameters of the routes:

- the UUIDs (`id`, `itemIds`);
- the clock readings (`now`, `clock`);
- the local-day bounds of a `date` query (`DateQuery.start` and `end`).

Timestamps are integers (milliseconds).

## Model

| member | source | states |
|---|---|---|
| `OrderStore.Authorized` | server/index.ts:62-68 | a request passes iff its credential is non-empty and equals the passphrase; a non-empty `x-passphrase` header takes precedence over the `pass` query parameter |
| `OrderStore.ConfiguredPassphrase` | server/index.ts:64 | the passphrase is never empty; a non-empty `ADMIN_PASSPHRASE` is used as is, and "letmein" is used when it is unset or empty |
| `OrderStore.DefaultPassphraseOnly` | server/index.ts:63-64 | with no passphrase configured, exactly the credential "letmein" is accepted |
| `OrderStore.MakeOrderNo` | server/index.ts:52-59 | `makeOrderNo`: "ORD-", the last two digits of the year, the month and the day padded to two digits, "-", the last five digits of the clock; `OrderNoRoundTrip` states its format and read-back |
| `OrderStore.OrderNoRoundTrip` | server/index.ts:52-59 | for a year of at least two digits, a calendar month and day, and a clock of at least five digits, the order number has 16 characters of the form `ORD-YYMMDD-NNNNN` and reads back as year mod 100, month (1-based), day and clock mod 100000 |
| `OrderStore.SumRequested` | server/index.ts:94-98 | the `forEach` accumulates Σ price × qty of the requested lines |
| `OrderStore.NewItemsMatchRequest` | server/index.ts:116-123 | the stored lines correspond one-to-one and in order with the requested lines: same key, name, qty and price, the new order's id and the drawn line ids; their total is the requested total |
| `OrderStore.NewOrder` | server/index.ts:100-113 | the order record the create handler builds; `NewOrderConsistent` states its fields and its consistency with the stored lines |
| `OrderStore.NewOrderConsistent` | server/index.ts:100-123 | a created order is consistent with its lines (total = Σ over its lines, lines point to it); its history is exactly one "Created" entry at `now`; `created_at` and `updated_at` are `now`; it is "New" and "Not Paid"; the menu version is the given one or "RestoVersion"; guest name, room and notes are the given ones, or `""` when absent or empty |
| `OrderStore.StoreSet` | server/index.ts:125-126 | `Map.set` of a consistent order keeps the store invariant; a new key goes to the end of the key order, an existing key keeps its place |
| `OrderStore.Server.constructor` | server/index.ts:48-49 | both stores start empty, under the configured passphrase |
| `OrderStore.Server.CreateOrder` | server/index.ts:89-135 | unauthorised requests change nothing; otherwise the new order and its lines are stored under the id and returned |
| `OrderStore.Server.GetOrder` | server/index.ts:138-148 | 401 without the passphrase; "not found" for an unknown id; otherwise the order with its lines (`[]` when none are stored) |
| `OrderStore.Where` | server/index.ts:163-174 | a filter keeps exactly the orders that pass it, as a subsequence of its input |
| `OrderStore.ApplyFilters` | server/index.ts:156-175 | the three optional filters applied in turn keep exactly the orders that pass every given filter, in their original order |
| `OrderStore.Insert` | server/index.ts:177-181 | one insertion step of the newest-first sort; `InsertSorted` and `SortNewestFirstCorrect` state its effect |
| `OrderStore.SortNewestFirst` | server/index.ts:177-181 | the list handler's sort by `created_at`, newest first, as an insertion sort; `SortNewestFirstCorrect` states that it orders and permutes |
| `OrderStore.InsertAddsOne` | server/index.ts:177-181 | an insertion step adds exactly the inserted order to the multiset of orders |
| `OrderStore.InsertSorted` | server/index.ts:177-181 | inserting into a newest-first list keeps it newest first and adds exactly that order |
| `OrderStore.SortNewestFirstCorrect` | server/index.ts:177-181 | the sort yields a permutation of its input ordered by `created_at`, newest first |
| `OrderStore.StoredOrdersOfStore` | server/index.ts:154 | under the store invariant, `ordersStore.values()` are exactly the orders filed under their own ids |
| `OrderStore.StoredOrdersDistinct` | server/index.ts:154 | with distinct keys and each order filed under its own id, `ordersStore.values()` has no repeats |
| `OrderStore.FilteredStore` | server/index.ts:154-175 | filtering `ordersStore.values()` keeps exactly the stored orders that pass, each filed under its own id, none twice |
| `OrderStore.ListedViews` | server/index.ts:177-186 | after sorting and attaching lines, every listed order is a stored one that passes the filters and carries its own stored lines; every stored order that passes is listed, and no order is listed twice; the list is newest first |
| `OrderStore.ViewsMembers` | server/index.ts:182-186 | attaching lines gives every order one view with its own stored lines (`[]` when none) and nothing else |
| `OrderStore.ListStored` | server/index.ts:154-186 | the list handler's filter, sort and line attachment: every listed order is a stored one that passes, with its own lines; every passing stored order is listed, once; newest first |
| `OrderStore.Server.ListOrders` | server/index.ts:151-189 | 401 without the passphrase; otherwise the listed orders are exactly the stored ones in the inclusive day window (when a date is given), with the exact status and the exact room (when given), each listed exactly once, newest first, each with its lines |
| `OrderStore.PrepareLines` | server/index.ts:199-210 | the `map` with accumulator builds the stored lines for the request and their total |
| `OrderStore.WithItems` | server/index.ts:212-222 | the order after the add-items handler's field assignments; `WithItemsConsistent` states its fields and consistency |
| `OrderStore.WithItemsConsistent` | server/index.ts:199-225 | appending lines keeps total = Σ over all lines; the total rises by exactly the requested total; the history is the old one followed by exactly "Added N items" at `now`, N the number of requested lines; `updated_at` becomes `now`; status becomes "Updated"; no other field changes |
| `OrderStore.Server.AddItems` | server/index.ts:192-232 | 401 or "order not found" change nothing; otherwise the new lines follow the old ones, unmerged, and the order becomes `WithItems`, logging "Added N items" with N the number of requested lines |
| `OrderStore.Updated` | server/index.ts:243-256 | the order after the update handler's field assignments; `UpdatedEffect`, `UpdateIdempotent` and `UpdatedConsistent` state its effect |
| `OrderStore.ApplyUpdate` | server/index.ts:239-257 | the update route's sequence of field assignments yields `Updated` |
| `OrderStore.UpdatedEffect` | server/index.ts:243-256 | a non-empty status or payment status is taken; the history is the old one followed by "Status -> S" (when the status really changes) and then "Payment -> P" (when the payment status really changes), both at `now`; `notes` wins over `requested_time`; `requested_time` replaces the notes when `notes` is absent; with neither, the notes are kept; `updated_at` is always refreshed; no other field changes |
| `OrderStore.UpdateIdempotent` | server/index.ts:243-257 | repeating an update at the same instant changes nothing and logs nothing |
| `OrderStore.UpdatedConsistent` | server/index.ts:243-259 | an update keeps the order consistent with its lines |
| `OrderStore.Server.UpdateOrder` | server/index.ts:235-267 | 401 or "order not found" change nothing; otherwise the order becomes `Updated` and the lines are untouched |
| `OrderStore.Notified` | server/index.ts:276-278 | the order after the WhatsApp route logs its entry; `NotifiedConsistent` states its effect |
| `OrderStore.NotifiedConsistent` | server/index.ts:275-280 | notifying appends exactly one "WhatsApp sent to kitchen" entry and changes no other field, not even the update time |
| `OrderStore.Server.SendWhatsapp` | server/index.ts:270-284 | 401 or "order not found" change nothing; otherwise the order becomes `Notified` and the reply is `{ok: true}` |
| `OrderStore.ItemsSummary` | server/index.ts:356 | the items column: `qty + "x " + name` per line, joined by a vertical bar |
| `OrderStore.CsvFields` | server/index.ts:357-358 | the eight columns of an order's line, all but the total quoted |
| `OrderStore.CsvRow` | server/index.ts:357-358 | the columns joined by commas; `CsvLines` and `RenderLines` place one per order |
| `OrderStore.CsvLines` | server/index.ts:350-360 | the export is the column header followed by exactly one line per order, in order |
| `OrderStore.RenderLines` | server/index.ts:350-360 | the `for ... of` loop produces the header line and then one line per order, in order |
| `OrderStore.Server.ExportCsv` | server/index.ts:335-365 | 401 without the passphrase; 400 "date required" without a date; otherwise the file `orders-<date>.csv` holds the header and one line per stored order in the day window, in store order, items rendered `qty + "x " + name` joined by a vertical bar |
| `Menu.GroupMenuByCategory` | shared/menu.ts:91-118 | the grouping loop and the bucket step yield `GroupsFor(items, categoryOrder)`: at most eight groups, each named by a listed category, each holding exactly that category's items in input order, never empty |
| `Menu.FillGrouped` | shared/menu.ts:92-99 | after the loop every category seen maps to exactly its items in input order, never empty, and a category not seen has no items |
| `Menu.InCategoryMember` | shared/menu.ts:94-99 | every item lands in the bucket of its own category |
| `Menu.Buckets` | shared/menu.ts:112-117 | the second half of the grouping: one bucket per listed category, empty ones dropped; `BucketsAreGroups` relates it to `GroupsFor` |
| `Menu.BucketsAreGroups` | shared/menu.ts:112-117 | when the dictionary holds exactly each category's items, the buckets are `GroupsFor` of the items |
| `Menu.GroupsForBuckets` | shared/menu.ts:112-117 | the groups are the non-empty buckets in category order; each holds exactly its category's items; there are at most as many groups as listed categories |
| `Menu.GroupsForListed` | shared/menu.ts:112-117 | every group is named by a listed category and holds exactly that category's items, never empty; there are at most as many groups as listed categories |
| `Menu.PresentCategoriesMembers` | shared/menu.ts:101-117 | a category gets a group iff it is listed and received an item; group names keep the listed order |
| `Menu.PresentCategoriesDistinct` | shared/menu.ts:101-117 | group names are distinct |
| `Menu.UnlistedCategoryDropped` | shared/menu.ts:101-117 | an item whose category is not listed appears in no group |
| `Menu.GroupingLosesNothing` | shared/menu.ts:91-118 | when the listed categories are distinct and every item's category is listed, the group sizes add up to the number of items |
| `Menu.CategoryOrderDistinct` | shared/menu.ts:101-110 | the eight listed categories are distinct |
| `Menu.CatalogWellFormed` | shared/menu.ts:16-89 | catalog ids are pairwise distinct, every price is positive and every category is one of the eight listed ones |
| `Menu.CatalogGroupingComplete` | shared/menu.ts:16-118 | the catalog has 57 entries and its grouping holds all of them |
| `Cart.CartAdd` | client/pages/Menu.tsx:55-64 | `addToCart`; `CartAddEffect` and `CartAddTotal` state its effect |
| `Cart.CartAddEffect` | client/pages/Menu.tsx:55-64 | adding an entry already in the cart raises that line's quantity by one and adds no line; otherwise a line of one is appended at the end |
| `Cart.CartAddTotal` | client/pages/Menu.tsx:55-84 | with one line per entry, each line for that id priced as the entry (true of lines drawn from the catalog, whose ids are distinct), adding an entry raises the cart total by exactly its price |
| `Cart.CartUpdate` | client/pages/Menu.tsx:67-75 | `updateQuantity`; `CartUpdateEffect` and `CartUpdateKeepsInvariant` state its effect |
| `Cart.CartUpdateEffect` | client/pages/Menu.tsx:67-75 | a quantity of zero or less is a removal; otherwise only the lines of that entry get the new quantity |
| `Cart.CartRemove` | client/pages/Menu.tsx:77-79 | `removeFromCart`; `CartRemoveEffect` and `CartRemoveKeepsInvariant` state its effect |
| `Cart.CartTotal` | client/pages/Menu.tsx:81-84 | `cartTotal`, Σ price × quantity; `CartAddTotal` and `PayloadLinesTotal` relate it to adding an entry and to the request total |
| `Cart.CartRemoveEffect` | client/pages/Menu.tsx:77-79 | removal drops exactly the lines of that entry and keeps the rest in order |
| `Cart.CartUpdateKeepsInvariant` | client/pages/Menu.tsx:67-75 | updates keep one line per entry and positive quantities |
| `Cart.CartRemoveKeepsInvariant` | client/pages/Menu.tsx:77-79 | removals keep one line per entry and positive quantities |
| `Cart.Visible` | client/pages/Menu.tsx:46-53 | the `filteredMenu` predicate: the name contains the search term, case-insensitively, and no category or the entry's own is selected |
| `Cart.FilterMenu` | client/pages/Menu.tsx:46-53 | `menu.filter` with that predicate; `FilterMenuEffect` and `FilterMenuShowsAll` state its effect |
| `Cart.FilterMenuEffect` | client/pages/Menu.tsx:46-53 | an entry is shown iff its lower-cased name contains the lower-cased term and no category or its own category is selected; the shown entries keep menu order |
| `Cart.FilterMenuShowsAll` | client/pages/Menu.tsx:46-53 | an empty term with no category shows the whole menu |
| `Cart.ToggleCategory` | client/pages/Menu.tsx:194-197 | clicking the selected category clears the selection; clicking any other selects it |
| `Cart.ToggleTwice` | client/pages/Menu.tsx:194-197 | two clicks on the same category restore the selection iff nothing or that same category was selected; with another category selected they clear it |
| `Cart.PayloadLines` | client/pages/Menu.tsx:97-102 | one request line per cart line with `item_key` the entry id and `qty` the quantity |
| `Cart.PayloadLinesTotal` | client/pages/Menu.tsx:81-102 | the requested total equals the cart total |
| `Cart.SaveRequest` | client/pages/Menu.tsx:86-103 | saving is refused iff the guest name or room is empty; otherwise the body carries them and the cart's lines |
| `Cart.SavedOrderMatchesCart` | client/pages/Menu.tsx:92-103 | the order the server creates from an accepted save totals the cart, has a line per cart line with the same entry, price and quantity, and keeps guest, room, notes and menu version |
| `Cart.MenuPage.constructor` | client/pages/Menu.tsx:31-43 | an empty cart, a blank form, no search and no category, version "RestoVersion" |
| `Cart.MenuPage.AddToCart` | client/pages/Menu.tsx:55-65 | the cart becomes `CartAdd` of the old one and its total rises by the entry's price; one line per entry is kept |
| `Cart.MenuPage.UpdateQuantity` | client/pages/Menu.tsx:67-75 | the cart becomes `CartUpdate` of the old one; the page invariant is kept |
| `Cart.MenuPage.RemoveFromCart` | client/pages/Menu.tsx:77-79 | the cart becomes `CartRemove` of the old one; the page invariant is kept |
| `Cart.MenuPage.ClickCategory` | client/pages/Menu.tsx:194-197 | the selection becomes `ToggleCategory` of the old one |
| `Cart.MenuPage.ClickAllItems` | client/pages/Menu.tsx:181 | the selection is cleared |
| `Cart.MenuPage.SetSearchTerm` | client/pages/Menu.tsx:173 | the search term is replaced |
| `Cart.MenuPage.SetGuestDetails` | client/pages/Menu.tsx:353 | the form is replaced |
| `Cart.MenuPage.SaveOrder` | client/pages/Menu.tsx:86-103 | no request iff guest name or room is empty; otherwise a body with one line per cart line, the page's version and the cart total |
| `Cart.MenuPage.OrderSaved` | client/pages/Menu.tsx:118-125 | after a successful save the cart and the form are reset |
| `OrdersPage.MatchesSearch` | client/pages/Orders.tsx:66-71 | the search predicate: the lower-cased term occurs in the lower-cased order number, guest name or room |
| `OrdersPage.FilterOrders` | client/pages/Orders.tsx:65-74 | an order is kept iff the lower-cased term occurs in its lower-cased order number, guest name or room; the kept orders keep their order |
| `OrdersPage.EmptySearchKeepsAll` | client/pages/Orders.tsx:66-72 | an empty search keeps every order |
| `OrdersPage.SearchIgnoresTermCase` | client/pages/Orders.tsx:66-72 | lower-casing the term first does not change the result |
| `OrdersPage.SearchFindsOwnNumber` | client/pages/Orders.tsx:66-72 | every order is found by its own order number |
| `OrdersPage.StatusColor` | client/pages/Orders.tsx:105-120 | the fallback "bg-gray-400" is returned iff the status is none of the five known ones |
| `OrdersPage.KnownStatusColorsDistinct` | client/pages/Orders.tsx:105-120 | the five known statuses get five different colours |
| `OrdersPage.UpdatedOrdersShowFallback` | client/pages/Orders.tsx:105-120 | an order marked "Updated" by the add-items route is shown in the fallback colour |
| `OrdersPage.Param` | client/pages/Orders.tsx:40-42 | a parameter is found iff some pair carries its name |
| `OrdersPage.ListQuery` | client/pages/Orders.tsx:40-42 | the list request's parameters; `ListQueryReadBack` states what they read back as |
| `OrdersPage.ListQueryReadBack` | client/pages/Orders.tsx:40-42 | reading the list request's parameters back gives `date` iff a date is selected, with that date, and `status` iff a non-empty status is selected, with that status |
| `OrdersPage.ExportAction` | client/pages/Orders.tsx:76-98 | nothing is requested without a selected date; otherwise that date is sent |

## Left out

- HTTP, Express routing, CORS and body parsing are not modelled. Each route is a method that takes the request's relevant values and returns a `Response`.
- The React rendering is not modelled.
- `fetch` calls and `alert` are not modelled.
- The unused `showCheckout` flag is not modelled.
- The print-bill route (server/index.ts:287-332) is not modelled: it builds presentation HTML only.
- The ping and demo routes are not modelled.
- UUIDs, `new Date()` and `Date.now()` are parameters, not generated.
- The passphrase is fixed when the server is built. The source re-reads `ADMIN_PASSPHRASE` on every request; nothing in the program changes it.
- The local-day window of a `date` query is the given `start`/`end`; parsing the date text and time zones are not modelled.
- An invalid date string is not modelled. In the source it makes every comparison false.
- Timestamps are integer milliseconds rather than ISO strings. The CSV's `created_at` column therefore renders the number in decimal.
- History is a sequence of entries rather than a JSON string re-parsed on every access.
- Order records are values replaced under their key. Aliasing between an order object and later reads is not modelled; no route keeps a reference across requests.
- Request lines are assumed to carry numeric `price` and `qty`. The source neither defaults nor rejects a missing one; a missing `qty` would give a NaN total and a stored line without `qty`.
- JSON `null` and non-string values in request bodies are not modelled. `notes: null` would store `null`.
- A create request without an `items` array is not modelled. The source throws there.
- CSV quoting and escaping of field contents are not modelled. A name containing `"` or a newline is written as is.
- `toLowerCase` covers ASCII letters only.
- Prices, quantities and totals are unbounded integers rather than JavaScript floating-point numbers.
- The sort's stability is not proved. For equal `created_at` values only the newest-first order and the permutation are stated.
- `Menu.GroupMenuByCategory`: the source's `grouped` is a plain object. A category named like an `Object.prototype` member (`"constructor"`) is not modelled.
- `Menu`'s catalog entries carry no `description`, and neither do the source's.
- The `tableChoice` and `paymentMode` form fields are kept in `GuestDetails`. The source never sends them, and neither does the model.
