# Shopping list — a Dafny model

This project models the core of a shopping-list application. The back end
is an Express server over PostgreSQL, with:

- products, shopping lists and list items;
- partial updates (`COALESCE`);
- the rule that marks a list completed once every item is purchased and
  reopens it otherwise;
- the registration checks and the bearer-token middleware.

The front end is React over a Supabase service layer, with:

- the product-alternatives table;
- list statistics;
- the search, filter and sort logic of the pages;
- the colour picker's contrast rule;
- the local state updates after a create, toggle or delete.

Modules follow the source files:

| module | file |
|---|---|
| `Server` | `backend/server.js` |
| `ColorPicker` | `frontend/src/components/ColorPicker.tsx` |
| `SupabaseApi` | `frontend/src/services/supabase-api.ts` |
| `Types` | `frontend/src/types/index.ts`, plus the supermarket row of `frontend/src/lib/supabase.ts` |
| `MainApp` | `frontend/src/index.tsx` |
| `HomePage`, `ProductsPage`, `ProductDetail`, `ListPage`, `SupermarketsPage` | the pages of the same names |

Three support modules model the JavaScript built-ins the code relies on:

- `Wrappers`: `Option`, `Result` and `??`.
- `JsText`: `includes`, `toLowerCase`, `trim`, `split`, `parseInt`, `toString`.
- `Seqs`: `filter`, `slice` and sorting by a key.

How state is modelled:

- The server's tables are maps held by the class `Server.Store`. Its handlers
  are methods whose `ensures` give the whole new state.
- The alternatives table and the product table are held by
  `SupabaseApi.Catalog`.
- The colour picker's two `useState` hooks are the fields of
  `ColorPicker.ColorPickerState`.
- Page state updated through `setX(...)` is modelled as a function from the
  old state to the new state.

Alternatives follow the code. The code stores them as a directed pair table,
`product_alternatives(product_id, alternative_product_id)`:

- `getAlternatives` reads only the pairs whose source is the product;
- `addAlternative` and `removeAlternative` add or delete exactly one pair;
- deleting a product removes every pair that mentions it.

The model proves what these pairs give: adding is not symmetric, and
removing is exact.

## Model

| member | source | states |
|---|---|---|
| Server.ShouldBeCompletedMeaning | backend/server.js:50-63 | a list is due for completion iff it has at least one item and every one of its items is purchased |
| Server.CompletionStep | backend/server.js:67-90 | the list's flag becomes the rule's verdict; `completed_at` is stamped only on a false→true change and cleared only on a true→false change; nothing else in the row changes |
| Server.CompletionStepIdempotent | backend/server.js:67-90 | running the completion check a second time changes nothing, whatever the time |
| Server.Store.CheckAndUpdateListCompletion | backend/server.js:45-95 | only list `listId` changes, by the completion step, and afterwards its flag agrees with its items |
| Server.OtherListsUnaffected | backend/server.js:50-56 | an item change confined to one list leaves every other list's completion verdict unchanged |
| Server.InUseMeaning | backend/server.js:339-344 | the usage count is positive iff some list item refers to the product |
| Server.Store.DeleteProduct | backend/server.js:334-361 | a product in use is refused (400) and kept; otherwise a missing product gives 404 and an existing one is removed |
| Server.PatchProduct | backend/server.js:312-320 | each field given replaces the old one and each field omitted keeps its value, so an empty patch leaves the row as it was |
| Server.Store.UpdateProduct | backend/server.js:307-332 | 404 when the product does not exist; otherwise the row becomes the patched row and is returned |
| Server.PatchList | backend/server.js:448-457 | COALESCE for each field; `completed_at` is stamped only when completion is sent as true, and kept otherwise, even when the list is set back to open |
| Server.Store.UpdateList | backend/server.js:442-469 | 404 unless the list belongs to the user; otherwise the list row is patched and returned |
| Server.PatchItem | backend/server.js:553-564 | COALESCE for each field; `purchased_at` is stamped when the item is sent as purchased |
| Server.PatchesIdempotent | backend/server.js:312-320 | sending the same partial update twice equals sending it once, for products, and for lists (448-457) and items (553-564) |
| Server.NewItemRow | backend/server.js:502-527 | the inserted item row: the quantity sent, or 1 when it is missing or 0; the unit sent, else (for a catalogue product sent without a price) the product's unit, else `'unidad'`; the price sent, or the product's price for a catalogue product sent without one; unpurchased |
| Server.Store.AddItem | backend/server.js:490-538 | 404 for a list not owned; 400 without a product or a name; otherwise a fresh id is inserted with the new row and the id sequence advances by one, the list's completion is re-checked and agrees; an error changes nothing |
| Server.Store.UpdateItem | backend/server.js:541-584 | 404 for a list not owned or an item not in it; otherwise the item is patched and the list's completion agrees with its items |
| Server.Store.DeleteItem | backend/server.js:586-613 | 404 for a list not owned or an item not in it; otherwise the item is removed and the list's completion agrees with its items |
| Server.CheckRegistration | backend/server.js:100-122 | missing fields give 400 first, then a password mismatch gives 400; otherwise the first clashing row decides 409 (email when its email matches, else username), and registration proceeds iff no user has that email or that username |
| Server.BearerToken | backend/server.js:195-196 | no header gives no token; an empty header gives the empty token |
| Server.Authenticate | backend/server.js:194-209 | 401 iff there is no token; a token that does not verify gives 403; a token that verifies authenticates exactly its user |
| Server.BearerRoundTrip | backend/server.js:196 | `Bearer <token>` yields exactly its token when the token has no space |
| Server.HeaderWithoutSpaceIsUnauthorized | backend/server.js:196-200 | a non-empty header without a space carries no token and is answered with 401 |
| ColorPicker.ValidHexColorShape | frontend/src/components/ColorPicker.tsx:57-59 | a valid colour is `#` and then exactly three or six hex digits of either case |
| ColorPicker.RemoveFirstHash | frontend/src/components/ColorPicker.tsx:31 | `replace('#','')` removes one character when a `#` occurs and leaves strings without `#` alone |
| ColorPicker.RemoveFirstHashAt | frontend/src/components/ColorPicker.tsx:31 | only the first `#` is removed: the text before it and everything after it are kept |
| ColorPicker.EffectiveColor | frontend/src/components/ColorPicker.tsx:26-28 | a missing or empty colour becomes the default; any other colour is kept |
| ColorPicker.Normalize | frontend/src/components/ColorPicker.tsx:40-42 | the result has six hex digits; three digits are doubled one by one; six are kept |
| ColorPicker.Channel | frontend/src/components/ColorPicker.tsx:45-47 | each two-digit channel is a byte below 256 |
| ColorPicker.DefaultIsValid | frontend/src/components/ColorPicker.tsx:27 | the default `#6366F1` loses its `#` and is then a valid six-digit body |
| ColorPicker.ContrastTextColor | frontend/src/components/ColorPicker.tsx:24-54 | the text colour is always black or white |
| ColorPicker.MissingColorIsDefault | frontend/src/components/ColorPicker.tsx:26-28 | a missing or empty colour gets the default colour's text colour |
| ColorPicker.MalformedColorIsDefault | frontend/src/components/ColorPicker.tsx:34-37 | a colour that is not three or six hex digits once its `#` is removed gets the default colour's text colour |
| ColorPicker.BlackIffBright | frontend/src/components/ColorPicker.tsx:45-53 | black text iff the weighted luminance of the six-digit colour exceeds 127.5 (scaled by 1000) |
| ColorPicker.ShortFormAgrees | frontend/src/components/ColorPicker.tsx:40-42 | `#abc` and `#aabbcc` get the same text colour |
| ColorPicker.BlackGetsWhiteText | frontend/src/components/ColorPicker.tsx:45-53 | `#000000` gets white text |
| ColorPicker.WhiteGetsBlackText | frontend/src/components/ColorPicker.tsx:45-53 | `#FFFFFF` gets black text |
| ColorPicker.DefaultGetsWhiteText | frontend/src/components/ColorPicker.tsx:26-53 | the default indigo `#6366F1`, and so a missing colour, gets white text |
| ColorPicker.HashIsOptional | frontend/src/components/ColorPicker.tsx:31-37 | bare digits and `#`-prefixed digits get the same text colour, although bare digits are not a valid colour for `isValidHexColor` |
| ColorPicker.ValidColorIsUsed | frontend/src/components/ColorPicker.tsx:31-53 | a valid colour is judged by its own digits and is never replaced by the default |
| ColorPicker.ColorPickerState.constructor | frontend/src/components/ColorPicker.tsx:72-73 | the custom field starts at the selected colour and the custom picker starts hidden |
| ColorPicker.ColorPickerState.HandlePresetColorClick | frontend/src/components/ColorPicker.tsx:78-82 | the preset becomes the custom colour and is emitted, and the picker is hidden |
| ColorPicker.ColorPickerState.HandleCustomColorChange | frontend/src/components/ColorPicker.tsx:84-91 | the typed text is always kept and is emitted iff it is a valid colour |
| ColorPicker.ColorPickerState.ToggleCustomPicker | frontend/src/components/ColorPicker.tsx:148 | the show/hide button flips the custom picker's visibility |
| ColorPicker.ColorPickerState.HandleCustomColorBlur | frontend/src/components/ColorPicker.tsx:93-98 | an invalid custom colour reverts to the selected colour and a valid one stays, so a valid selection leaves a valid field |
| SupabaseApi.Targets | frontend/src/services/supabase-api.ts:289-299 | a product's alternatives are exactly the targets of the pairs whose source is the product |
| SupabaseApi.Unlink | frontend/src/services/supabase-api.ts:275-279 | the cascade keeps exactly the pairs that mention the product at neither end |
| SupabaseApi.AddIsDirected | frontend/src/services/supabase-api.ts:322-328 | adding `(p, a)` gives `p` the alternative `a` and changes no other product's alternatives, so `a` does not gain `p` |
| SupabaseApi.RemoveIsExact | frontend/src/services/supabase-api.ts:330-338 | removing `(p, a)` takes exactly `a` from `p` and changes no other product's alternatives |
| SupabaseApi.RemoveUndoesAdd | frontend/src/services/supabase-api.ts:322-338 | removing a pair just added restores the table when the pair was new |
| SupabaseApi.UnlinkClears | frontend/src/services/supabase-api.ts:273-287 | after deleting a product it has no alternatives and is nobody's alternative; other products lose only it |
| SupabaseApi.Catalog.AddAlternative | frontend/src/services/supabase-api.ts:322-328 | the pair is inserted iff both ends are existing products (the foreign keys); otherwise nothing changes |
| SupabaseApi.Catalog.RemoveAlternative | frontend/src/services/supabase-api.ts:330-338 | exactly that pair is deleted and the foreign keys still hold |
| SupabaseApi.Catalog.GetAlternatives | frontend/src/services/supabase-api.ts:289-320 | the products returned are exactly the product's alternatives, each with its catalogue row |
| SupabaseApi.Catalog.Delete | frontend/src/services/supabase-api.ts:273-287 | every pair mentioning the product goes and then the product; the foreign keys still hold |
| SupabaseApi.ItemStats | frontend/src/services/supabase-api.ts:358-364 | the item count is the number of items, and the purchased count is the number purchased and never exceeds it |
| SupabaseApi.GetAll | frontend/src/services/supabase-api.ts:346-365 | one summary per list, in order, each with that list's statistics; a list without an item array counts as empty |
| SupabaseApi.Flatten | frontend/src/services/supabase-api.ts:387-396 | the flattened item keeps its row and copies the joined category's name, colour and icon and the joined supermarket's name and colour; each is absent when its join is absent (`?.`) |
| SupabaseApi.FlattenAll | frontend/src/services/supabase-api.ts:387-396 | the items are flattened one for one, in order |
| SupabaseApi.RowsOfFlattened | frontend/src/services/supabase-api.ts:387-398 | the rows behind the flattened items are the original rows, in order |
| SupabaseApi.GetById | frontend/src/services/supabase-api.ts:367-404 | success iff exactly one list has the id (`.single()`); then it is that list, its items are its rows flattened, and its statistics are its items' |
| SupabaseApi.ViewStats | frontend/src/services/supabase-api.ts:399-403 | the statistics computed over the flattened items equal those of the underlying rows |
| SupabaseApi.SumViewCosts | frontend/src/services/supabase-api.ts:401-402 | the estimated total over flattened items equals the total over the rows |
| SupabaseApi.PurchasedViews | frontend/src/services/supabase-api.ts:400 | counting purchased flattened items counts the purchased rows |
| SupabaseApi.GetAllAgreesWithGetById | frontend/src/services/supabase-api.ts:358-403 | a list's statistics are the same whether read through `getAll` or `getById` |
| SupabaseApi.Create | frontend/src/services/supabase-api.ts:406-418 | refused iff nobody is signed in; a new list belongs to the user, has the given name and reports zero items and a zero total |
| SupabaseApi.CreatedListStats | frontend/src/services/supabase-api.ts:406-418 | a created list's zero statistics are what `getAll` reports for it |
| SupabaseApi.DisplayName | frontend/src/services/supabase-api.ts:38 | a non-empty display name is used; otherwise the result is the email up to its first `@`, or the whole email when it has none |
| SupabaseApi.DisplayNameOfAddress | frontend/src/services/supabase-api.ts:38 | without a display name `local@domain` is shown as `local` |
| MainApp.FilteredLists | frontend/src/index.tsx:405-407 | exactly the lists whose name contains the query (ignoring case), in their order |
| MainApp.ListsPartition | frontend/src/index.tsx:409-410 | active and completed lists split the matching lists: together they hold each exactly once |
| MainApp.SortItems | frontend/src/index.tsx:781-810 | a permutation of the items, ordered by name, ascending or descending price, category, or by id when no sort applies |
| MainApp.ItemsPartition | frontend/src/index.tsx:812-813 | every item appears exactly once: pending if not purchased, completed if purchased |
| MainApp.ToggleItem | frontend/src/index.tsx:746-756 | only the items with that id change, and only their purchased flag, which becomes the negation of the state sent |
| MainApp.ToggleTwice | frontend/src/index.tsx:746-756 | toggling with the current state and then with the new state restores the items |
| MainApp.DeleteItem | frontend/src/index.tsx:763-774 | exactly the items with another id stay, in order |
| MainApp.FilteredAndSortedProducts | frontend/src/index.tsx:1194-1231 | the products matching the search and the category, each exactly once; ordered by name, ascending or descending price (missing as 0) or category name (`'Sin categoría'` when missing), and by the default sort newest (highest id) first |
| MainApp.ProductOrder | frontend/src/index.tsx:1203-1225 | ascending comparator key means: by name, by ascending or descending price (missing as 0), by category name, or by id descending for the default sort |
| MainApp.ModalFilterAgrees | frontend/src/index.tsx:1659-1695 | the add-item dialog's extra empty-search test changes nothing: it lists what the catalogue screen lists |
| MainApp.HandleSave | frontend/src/index.tsx:1697-1740 | creating posts the new product with the typed name, the parsed category (none when unselected), the price and the unit, then its item with the quantity; adding an existing product posts its id, the quantity, its unit or `'unidad'`, and its price unless it is zero |
| MainApp.ItemForCreated | frontend/src/index.tsx:1718-1722 | the item posted after creating a product carries the created id and the unit the server stored, with no price |
| MainApp.SaveIffCanSave | frontend/src/index.tsx:1697-1742 | with a session the dialog saves exactly when `canSave` holds; without a session it never does |
| HomePage.FilterListsIsOneFilter | frontend/src/pages/HomePage.tsx:45-64 | the search filter followed by the status filter is a single filter by "shown" |
| HomePage.FilterListsMeaning | frontend/src/pages/HomePage.tsx:45-64 | the shown lists are exactly those matching the search (name or description) and the status, in order |
| HomePage.StatusFilterMeaning | frontend/src/pages/HomePage.tsx:57-61 | `'active'` shows only open lists and `'completed'` only completed ones |
| HomePage.NoFilterShowsAll | frontend/src/pages/HomePage.tsx:45-64 | no search and `'all'` show every list |
| HomePage.HandleCreateList | frontend/src/pages/HomePage.tsx:66-82 | a blank name changes nothing; otherwise the new list goes first, the form is cleared and the dialog closes |
| HomePage.HandleDeleteList | frontend/src/pages/HomePage.tsx:84-96 | exactly the lists with another id stay, in order |
| HomePage.DeleteUndoesCreate | frontend/src/pages/HomePage.tsx:66-96 | deleting a list just created with a new id restores the lists from before |
| ProductsPage.FilterProductsIsOneFilter | frontend/src/pages/ProductsPage.tsx:48-62 | the name search followed by the category filter is a single filter by "shown" |
| ProductsPage.FilterProductsMeaning | frontend/src/pages/ProductsPage.tsx:48-62 | the shown products are exactly those matching the search and the category, in order |
| ProductsPage.NoFilterShowsAll | frontend/src/pages/ProductsPage.tsx:48-62 | no search and `'all'` show the whole catalogue |
| ProductsPage.CategoryTestsAgree | frontend/src/pages/ProductsPage.tsx:58 | comparing the category after `parseInt` here picks the same products as comparing after `toString` on the main screen |
| ProductsPage.HandleCreateProduct | frontend/src/pages/ProductsPage.tsx:64-79 | a blank name changes nothing; otherwise the new product goes first, the dialog closes and the form resets with unit `'ud'` |
| ProductsPage.CreateResetsForm | frontend/src/pages/ProductsPage.tsx:16-21 | after a creation the form is the initial form again, so an immediate second submit is refused |
| ProductDetail.PotentialAlternatives | frontend/src/pages/ProductDetailScreen.tsx:628-632 | at most five candidates: never the product itself or one already an alternative, each matching the search; the first five in catalogue order, and all of them when fewer |
| ProductDetail.CandidatesInCatalogueOrder | frontend/src/pages/ProductDetailScreen.tsx:628-632 | the candidates offered keep the catalogue's order |
| ProductDetail.BadgeColor | frontend/src/pages/ProductDetailScreen.tsx:15-17 | the supermarket's colour when it is non-empty, else the default |
| ProductDetail.BadgeTextColor | frontend/src/pages/ProductDetailScreen.tsx:15-17 | the badge's text colour is the contrast colour of its background; without a colour it is white |
| ListPage.FilteredProducts | frontend/src/pages/ListPage.tsx:108-110 | all products for an empty search; otherwise exactly those whose name contains it, in order |
| ListPage.HandleSubmit | frontend/src/pages/ListPage.tsx:112-122 | a new product is sent by name; an existing one by id, with its price unless the price is zero |
| ListPage.SubmitIffCanSubmit | frontend/src/pages/ListPage.tsx:112-124 | a request is sent exactly when `canSubmit` holds |
| ListPage.SubmittedRequestsAreAccepted | frontend/src/pages/ListPage.tsx:112-122 | every request the dialog sends names a product or a name, so the server's 400 check (backend/server.js:502) never refuses it |
| ListPage.HandleAddItem | frontend/src/pages/ListPage.tsx:34-43 | without a loaded list nothing changes; otherwise the new item is appended and the rest of the list is kept |
| ListPage.AddItemAppends | frontend/src/pages/ListPage.tsx:38 | the items grow by one, every earlier item keeps its place and the new one is last |
| SupermarketsPage.FilteredSupermarkets | frontend/src/pages/SupermarketsPage.tsx:55-58 | exactly the supermarkets whose name contains the search, in order |
| SupermarketsPage.EmptySearchKeepsAll | frontend/src/pages/SupermarketsPage.tsx:55-58 | an empty search keeps every supermarket |
| SupermarketsPage.CardColor | frontend/src/pages/SupermarketsPage.tsx:17 | the supermarket's colour when it is non-empty, else the default |
| SupermarketsPage.InitialFields | frontend/src/pages/SupermarketsPage.tsx:174-176 | the dialog opens on the edited supermarket's fields, or empty with the default colour |
| SupermarketsPage.Submit | frontend/src/pages/SupermarketsPage.tsx:179-195 | an update by id iff a supermarket is being edited, else a create, with the fields as typed |
| SupermarketsPage.NewSupermarketColor | frontend/src/pages/SupermarketsPage.tsx:174-188 | a new supermarket saved without touching the colour gets the valid default colour |
| SupermarketsPage.UnchangedEditKeepsSupermarket | frontend/src/pages/SupermarketsPage.tsx:174-188 | saving an edit unchanged sends back the supermarket's own name, logo and displayed colour |
| SupermarketsPage.HandleEdit | frontend/src/pages/SupermarketsPage.tsx:72-75 | the dialog opens on that supermarket |
| SupermarketsPage.HandleSave | frontend/src/pages/SupermarketsPage.tsx:88-92 | the dialog closes and nothing is being edited |
| SupermarketsPage.EditThenSave | frontend/src/pages/SupermarketsPage.tsx:72-92 | editing and then saving returns the page to rest, and the edit submits an update |

## Left out

- I/O is not modelled. Queries, HTTP, the pg pool and the Supabase client
  are abstracted: the server's tables are maps, and a service call is a
  function of the rows it reads.
- bcrypt hashing is not modelled, nor are the JWT signature and its
  expiry. `jwt.verify` is a parameter of `Authenticate`, so a verifier that
  rejects the empty token is left to that parameter.
- Concurrency is not modelled. In the source the completion check reads and
  then updates in two statements, so concurrent requests may interleave. The
  model runs each handler atomically.
- The source's catch blocks are not modelled. A database error inside the
  completion check after `PUT items` is logged and the request still
  succeeds. The model has no database errors.
- Prices are modelled as integers (cents), not floating point. This covers
  `parseFloat`, the `reduce` sums and `* quantity`. The form parses prices
  before they reach the model, as `Option<int>`.
- `ColorPicker.BlackIffBright`: the weighted sum is computed exactly in
  integers, 1000 times the source's sum. At the 127.5 boundary the source's
  floating-point rounding could decide differently.
- `localeCompare` is a parameter `collate` that ranks names, not a
  collation algorithm.
- `MainApp.SortItems`: stability of `Array.prototype.sort` is not stated.
  Items with equal keys may come in any order consistent with the multiset.
- `MainApp.FilteredAndSortedProducts`: for named sorts, only the key order
  and the contents are stated, not the order among equal keys.
- `toLowerCase` and `trim` are modelled on ASCII letters and on the common
  whitespace characters only. Unicode case mapping and the full whitespace
  set are out of scope.
- The pairs are modelled as a set. Whether the database rejects a duplicate
  pair is not visible in the source, so here a duplicate insert is a no-op.
- `SupabaseApi.Catalog.AddAlternative`: among database errors, only the
  foreign-key failure is modelled. The flag says whether the insert happened.
- The order of rows from the database is a parameter (a sequence):
  - `ORDER BY created_at` in `getAll`;
  - the rows of the registration clash query.
- Rendering, styling, routing, the service worker, `localStorage`,
  `window.confirm` and `alert` are left out, because they decide no data.
- The category colour and icon fields are copied onto items by
  `SupabaseApi.Flatten` and read by nothing else in the model.
- `frontend/src/types/index.ts` has no supermarket type. The supermarket
  fields are those of the row type in `frontend/src/lib/supabase.ts`.
