# Seller dashboard state logic, in Dafny

This project models the state logic of a React seller dashboard ("Shop Match" /
"Lullaby"). The application is almost all view code. The parts with checkable behaviour
are these:

- **The product catalogue store** (`ProductsProvider`, in a TypeScript file and an
  identical JavaScript twin). It derives a Spanish status label from the stock:
  `"Agotado"` at 0, `"Bajo Stock"` up to 5, `"Activo"` above. It adds products with id
  "largest id (or 0) plus one" and puts them at the front of the list. It shallow-merges
  patches, filters on delete, and finds the first product with an id.
- **The profile store** (`ProfileProvider`, two twins). It holds a record that
  `updateProfile` replaces with `{ ...prev, ...updates }`.
- **Auth-token storage** (`lib/auth.js`). It writes the token to session and local
  storage, then reads it back with a fixed key precedence.
- **The buyer page** (`ProfileClientes.jsx`). It covers the name filter, the per-status
  totals, the local status update after a successful PATCH, and the state changes
  and request URL of the buyer fetch.
- **Tab resolution** in the profile sidebar and header, and the badge variant of the
  product list.

Modules: `Catalog`, `Profile`, `Auth`, `Buyers`, `ProfileTabs`, `ProductBadges`. There
are also two small helper modules: `Wrappers` (an `Option` type for `undefined`/`null`)
and `JsText` (`String.prototype.includes`).

State that the source keeps in React hooks becomes a class field:
- `ProductStore.products`
- `ProfileStore.profile`
- `ClientsPage.buyers`, `ClientsPage.isLoading` and `ClientsPage.isUpdatingStatus`

The browser's `sessionStorage` and `localStorage`, which `lib/auth.js` writes and reads,
become the fields `Browser.session` and `Browser.local`.

Each method states its new state through a pure function (`Added`, `Updated`, `Without`,
`Apply`, `AfterStore`, `SetStatus`). The lemmas prove the source's promises about those
functions.

The two `ProductsContext` files run the same logic, line for line. So do the two
`ProfileContext` files. Each pair is modelled once. The table cites whichever twin
states the row most directly. The JavaScript seed differs only by a `category` key, so
`Product` carries an optional `category` and both seeds are defined.

Status is not a class invariant of the product list:
- The seed product 1 has stock 5 but status `"Activo"`, while `getStatus(5)` gives
  `"Bajo Stock"`. `SeedsFacts` proves this for both seeds.
- A patch may set `status` without `stock`.

So consistency of status and stock is proved per operation (`NewProduct`, `Merge`,
`UpdateStatus`). Nothing in the code reports an error:
- `getProduct` returns `undefined` (`None`) for a missing id.
- An update or delete of a missing id is a silent no-op (`UpdateAbsentIsNoop`,
  `WithoutAbsent`).
- `addProduct` validates nothing.
- Negative stock has no guard and reads as `"Bajo Stock"`.

## Model

| member | source | states |
|---|---|---|
| Catalog.GetStatus | src/context/ProductsContext.tsx:32-36 | `"Agotado"` exactly at stock 0, `"Bajo Stock"` exactly for non-zero stock ≤ 5 (negatives included), `"Activo"` exactly above 5 |
| Catalog.MaxId | src/context/ProductsContext.jsx:22 | `Math.max(...ids, 0)`: at least 0, at least every id, and either 0 or one of the ids |
| Catalog.NextIdFresh | src/context/ProductsContext.tsx:42 | the assigned id is strictly above every existing id, is at least 1, and is 1 for an empty catalogue |
| Catalog.NewProduct | src/context/ProductsContext.tsx:43-47 | the new product carries every input field unchanged, the given id, and the status its stock derives |
| Catalog.Added | src/context/ProductsContext.tsx:48 | no contract; defines the list after `addProduct`, `[NewProduct(input, NextId(s))] + s`; its properties are in `AddPrepends`, `AddKeepsIdsUnique`, `GetAfterAdd` and `DeleteAfterAddReusesId` |
| Catalog.AddPrepends | src/context/ProductsContext.tsx:48 | after add the list is one longer, the new product is at index 0 with an id above all others, and the old list follows in order |
| Catalog.AddKeepsIdsUnique | src/context/ProductsContext.jsx:21-29 | adding to a list with unique ids keeps the ids unique |
| Catalog.GetAfterAdd | src/context/ProductsContext.tsx:41-72 | `getProduct(newId)` after `addProduct` returns the new product |
| Catalog.DeleteAfterAddReusesId | src/context/ProductsContext.jsx:21-48 | deleting the product just added restores the old list, and the next add gets the same id again (max-plus-one reuse) |
| Catalog.Merge | src/context/ProductsContext.jsx:35-38 | shallow merge: the id stays; each key in the patch takes the patch value (for the optional keys `undefined` included, which clears the field) and each other field is kept; the status is derived from the patch stock when the patch has stock, and is otherwise the patch status or the old one |
| Catalog.Updated | src/context/ProductsContext.jsx:31-44 | update keeps the length and position of every product; products with the id are merged, every other product is unchanged |
| Catalog.UpdateAbsentIsNoop | src/context/ProductsContext.tsx:51-64 | an update of an id no product has leaves the list unchanged |
| Catalog.UpdateKeepsIds | src/context/ProductsContext.tsx:51-64 | update changes no id, keeps the id set, and keeps uniqueness |
| Catalog.UpdateStatus | src/context/ProductsContext.tsx:55-58 | a matching product's status becomes `getStatus(patch.stock)` when the patch has stock, and stays as it was when the patch has neither stock nor status |
| Catalog.GetAfterUpdate | src/context/ProductsContext.tsx:51-72 | after `updateProduct(id, u)`, `getProduct(id)` is undefined when it was before, and otherwise is the first product with the id merged with `u` |
| Catalog.UndefinedImageClears | src/pages/EditarProducto.jsx:114-122 | the editor's patch, which sets `image` to `undefined` once every preview is removed, clears the product's image; a patch without the key keeps it |
| Catalog.UpdateEmptyIsNoop | src/context/ProductsContext.jsx:35 | the empty patch changes nothing |
| Catalog.Without | src/context/ProductsContext.jsx:46-48 | delete keeps exactly the products whose id differs, and never grows the list |
| Catalog.WithoutAppend | src/context/ProductsContext.tsx:66-68 | delete keeps order: filtering a concatenation concatenates the filtered parts |
| Catalog.WithoutAbsent | src/context/ProductsContext.tsx:66-68 | deleting an id no product has leaves the list unchanged |
| Catalog.DeleteIdempotent | src/context/ProductsContext.jsx:46-48 | deleting the same id twice equals deleting it once |
| Catalog.DeleteCount | src/context/ProductsContext.tsx:66-68 | delete shortens the list by exactly the number of products with that id |
| Catalog.DeleteKeepsIdsUnique | src/context/ProductsContext.jsx:46-48 | deleting keeps ids unique |
| Catalog.GetAfterDelete | src/context/ProductsContext.tsx:66-72 | after `deleteProduct(id)`, `getProduct(id)` is undefined |
| Catalog.Find | src/context/ProductsContext.jsx:50-52 | `find` is undefined exactly when no product has the id; otherwise it returns a listed product with that id |
| Catalog.FindIsFirst | src/context/ProductsContext.tsx:70-72 | the product found is the first with that id: every earlier product has another id |
| Catalog.SeedsFacts | src/context/ProductsContext.tsx:25-30 | both seeds have unique ids and next id 5; in both, product 1 is not status-consistent (stock 5, `"Activo"`) |
| Catalog.ProductStore.constructor | src/context/ProductsContext.tsx:39 | the store starts from `initialProducts` of the JavaScript or the TypeScript twin, so its ids start unique |
| Catalog.ProductStore.AddProduct | src/context/ProductsContext.tsx:41-49 | the list becomes the new product (next id, derived status) followed by the old list; unique ids stay unique |
| Catalog.ProductStore.UpdateProduct | src/context/ProductsContext.tsx:51-64 | the list becomes the merged map of the old one; unique ids stay unique; a missing id changes nothing |
| Catalog.ProductStore.DeleteProduct | src/context/ProductsContext.tsx:66-68 | the list becomes the filtered old list; unique ids stay unique; the id is no longer found |
| Catalog.ProductStore.GetProduct | src/context/ProductsContext.tsx:70-72 | undefined exactly when the id is absent; otherwise a listed product with that id |
| Profile.Apply | src/context/ProfileContext.tsx:35-37 | every key in the update takes the update's value; every absent key keeps the previous value |
| Profile.EmptyUpdateIsIdentity | src/context/ProfileContext.jsx:19-21 | `updateProfile({})` leaves the profile unchanged |
| Profile.ApplyIdempotent | src/context/ProfileContext.tsx:36 | applying the same update twice equals applying it once |
| Profile.ApplyCompose | src/context/ProfileContext.jsx:20 | two updates in a row equal one update with their right-biased merge (the later value wins) |
| Profile.FullUpdateForgetsPrevious | src/context/ProfileContext.tsx:36 | an update that sets every key gives the same profile whatever the previous one was |
| Profile.ProfileStore.constructor | src/context/ProfileContext.tsx:21-33 | the store starts from `initialProfile` |
| Profile.ProfileStore.UpdateProfile | src/context/ProfileContext.jsx:19-21 | the profile becomes the merge of the update into the old profile |
| Auth.GetItem | src/lib/auth.js:32 | a read yields a value exactly when the storage exists and holds the key |
| Auth.IsStorableToken | src/lib/auth.js:9 | no contract; defines the guard of `storeAuthToken`, a non-empty string; its effect is in `RejectedTokenChangesNothing` and `StoreThenGet` |
| Auth.FirstTruthy | src/lib/auth.js:31-41 | the result is one of the reads and non-empty, or null exactly when no read is non-empty |
| Auth.FirstTruthyIsFirst | src/lib/auth.js:31-39 | the read found is the first non-empty one: every read before it is null or empty |
| Auth.FirstTruthyAppend | src/lib/auth.js:31-39 | reads are tried left to right: a hit in the first group hides the second |
| Auth.StoredTokenPrecedence | src/lib/auth.js:27-42 | the lookup order is session `token`, session `authToken`, local `token`, local `authToken`; the first non-empty value wins, otherwise null |
| Auth.StoredToken | src/lib/auth.js:27-42 | no contract; defines the lookup as the first truthy read over session then local storage, each in `storageKeys` order; its properties are in `StoredTokenPrecedence`, `NoWindowNoToken` and `StoreThenGet` |
| Auth.NoWindowNoToken | src/lib/auth.js:1-4 | without a window there is no storage and the lookup returns null |
| Auth.AfterStore | src/lib/auth.js:9-24 | no contract; defines a storage after `storeAuthToken`: session gets `token`, local gets `token` and `authToken`, a rejected token writes nothing; its properties are in `StoreWritesOnlyTokenKeys`, `RejectedTokenChangesNothing` and `StoreThenGet` |
| Auth.StoreWritesOnlyTokenKeys | src/lib/auth.js:13-24 | storing changes no session key except `token` (in particular never session `authToken`), and no local key except `token` and `authToken` |
| Auth.RejectedTokenChangesNothing | src/lib/auth.js:9 | an empty or non-string token writes nothing |
| Auth.StoreThenGet | src/lib/auth.js:8-42 | round trip: after storing a non-empty token, whatever the storages held, the lookup returns that token |
| Auth.Browser.GetStorage | src/lib/auth.js:1-4 | a storage exists exactly when there is a window, and it is the one of the requested kind |
| Auth.Browser.StoreAuthToken | src/lib/auth.js:8-25 | in a browser the storages become their stored-into versions; without a window nothing changes |
| Auth.Browser.GetStoredAuthToken | src/lib/auth.js:27-42 | the two key loops return exactly the precedence lookup over the available storages, and never an empty string |
| Auth.StoreThenLoad | src/lib/auth.js:8-42 | storing then loading returns the token in a browser and null without a window |
| Buyers.MatchesQuery | src/pages/ProfileClientes.jsx:96 | no contract; defines the filter test: a name exists and its lowercased form includes the lowercased query; its properties are in `FilteredClients` and `EmptyQueryKeepsNamed` |
| Buyers.FilteredClients | src/pages/ProfileClientes.jsx:94-98 | keeps exactly the buyers that have a name whose lowercased form includes the lowercased query |
| Buyers.FilteredAppend | src/pages/ProfileClientes.jsx:94-98 | the filter preserves order (it distributes over concatenation) |
| Buyers.EmptyQueryKeepsNamed | src/pages/ProfileClientes.jsx:96 | with the empty query the filter keeps exactly the named buyers, so buyers without a name are dropped even then |
| Buyers.CountStatus | src/pages/ProfileClientes.jsx:154 | a status count never exceeds the number of buyers |
| Buyers.Tally | src/pages/ProfileClientes.jsx:150-157 | no contract; defines the `reduce` over the filters, each step writing one filter's total into the accumulator; its properties are in `TallyContents` |
| Buyers.StatusTotals | src/pages/ProfileClientes.jsx:149-158 | no contract; defines `statusTotals` as the reduce from `{}`; its properties are in `StatusTotalsSpec` and `StatusCountsWithinAll` |
| Buyers.TallyContents | src/pages/ProfileClientes.jsx:149-158 | the reduce leaves each filter value holding its total and keeps every other key of the accumulator |
| Buyers.StatusTotalsSpec | src/pages/ProfileClientes.jsx:149-158 | totals have exactly the four filter keys; `all` is the buyer count; pending, contacted and sold are the counts of buyers with that status |
| Buyers.StatusCountsWithinAll | src/pages/ProfileClientes.jsx:151-155 | pending + contacted + sold is at most `all` |
| Buyers.SkipsUpdate | src/pages/ProfileClientes.jsx:101 | no contract; defines the guard: the buyer has no truthy id, or already has the status; `ClientsPage.HandleStatusUpdate` states that exactly these calls change nothing |
| Buyers.StatusUrl | src/pages/ProfileClientes.jsx:116 | no contract; defines the PATCH URL, endpoint + username + `/status?status=` + status, with nothing encoded; `ClientsPage.HandleStatusUpdate` states it is the URL requested |
| Buyers.SetStatus | src/pages/ProfileClientes.jsx:129-131 | same length and order; buyers with the id get the status, all others are unchanged |
| Buyers.SetStatusOnlyTouchesMatching | src/pages/ProfileClientes.jsx:129-131 | ids, names and other keys never change; only matching buyers' status changes |
| Buyers.StatusParams | src/pages/ProfileClientes.jsx:47-50 | the parameters are empty exactly when the active filter is `all`; otherwise the only one is `status` with the active filter |
| Buyers.QueryString | src/pages/ProfileClientes.jsx:52-54 | the serialised query is empty exactly when there are no parameters |
| Buyers.BuyersUrl | src/pages/ProfileClientes.jsx:52-54 | no contract; defines the GET URL, endpoint + encoded username + `?query` when the query is non-empty; its properties are in `StatusQueryIffFiltered` |
| Buyers.StatusQueryIffFiltered | src/pages/ProfileClientes.jsx:47-54 | the URL is the bare endpoint plus the encoded username exactly when the filter is `all`; otherwise it adds `?status=<filter>` |
| Buyers.ClientsPage.constructor | src/pages/ProfileClientes.jsx:26-30 | initial state: empty query and list, loading, filter `all`, nothing updating |
| Buyers.ClientsPage.FetchBuyers | src/pages/ProfileClientes.jsx:37-86 | a request is made only with a username and a token; a mounted page ends not loading, holding the payload when it is ok and an array, and otherwise the empty list |
| Buyers.ClientsPage.HandleStatusUpdate | src/pages/ProfileClientes.jsx:100-147 | the guard (no id, or same status) and missing credentials change nothing; otherwise the list changes only on an ok response, and `isUpdatingStatus` ends null |
| ProfileTabs.GetActiveTab | src/components/layout/ProfileSidebar.jsx:15-20 | a truthy prop is returned unchanged; otherwise the result is one of the three ids, `clientes` exactly when the path includes it, then `productos` |
| ProfileTabs.IsActive | src/components/layout/ProfileSidebar.jsx:35 | no contract; defines `currentTab === item.id`; its properties are in `AtMostOneActive`, `SidebarHighlightsOne` and `HeaderHighlightsOne` |
| ProfileTabs.AtMostOneActive | src/components/layout/ProfileSidebar.jsx:33-35 | with distinct item ids at most one item is active, and exactly one when the tab is some item's id |
| ProfileTabs.SidebarHighlightsOne | src/components/layout/ProfileSidebar.jsx:6-35 | without a prop, exactly one sidebar item is highlighted for any path |
| ProfileTabs.HeaderHighlightsOne | src/components/layout/ProfileHeader.jsx:5-38 | exactly one header tab is highlighted when the current tab is one of the three ids |
| ProfileTabs.ClientesBeforeProductos | src/components/layout/ProfileHeader.jsx:16-17 | a path containing both words resolves to `clientes` |
| ProfileTabs.EmptyTabFallsThrough | src/components/layout/ProfileHeader.jsx:14-19 | an empty-string prop behaves as no prop; the bare `/profile` path gives `datos` |
| ProductBadges.GetStatusVariant | src/components/profile/ProductsList.tsx:16-27 | always one of three variants: `default` exactly for `disponible`, `destructive` exactly for `agotado`, `secondary` for everything else (including `bajo stock`) |

## Left out

- All JSX rendering, styling, logos, layouts and routing are left out, and so are toasts
  and `navigate`. They are presentation.
- Network calls are not modelled. The stored username and token, whether the response
  was ok, and the JSON payload are method inputs. An exception thrown by `fetch` is
  treated like a non-ok response, which is the path the source's `catch` takes.
- `toLowerCase`, `encodeURIComponent` and `URLSearchParams` form-encoding are function
  parameters. Their Unicode and percent-encoding semantics are not modelled.
- Prices and numeric profile fields are `real` values copied through. Floating point,
  `parseFloat`/`toFixed`, and non-integer or `NaN` stock are not modelled. Stock is an
  unbounded integer.
- Catalog.Merge: a product patch can set the optional keys (`description`, `sku`,
  `image`, `images`, `category`) to `undefined`, but not the required keys (`name`,
  `price`, `stock`, `status`), which a product always has in the model. No caller sends
  `undefined` for those. Extra keys of an untyped JavaScript patch (an `id` among them,
  which the JavaScript twin would merge too) cannot be expressed either.
- Profile.Apply: an update key set explicitly to `undefined` cannot be expressed. No
  caller of `updateProfile` sends one.
- Catalog.NextIdFresh: ids are unbounded integers. JavaScript's double-precision `+ 1`
  (which stops growing at 2^53) and the argument-count limit of the spread into
  `Math.max` are not modelled.
- Catalog.ProductStore.AddProduct: the model reads the list it prepends to. The source
  computes the id from the render-time `products` but prepends to the latest `prev`,
  and these differ only under concurrent updates.
- Buyers.ClientsPage.HandleStatusUpdate: `isUpdatingStatus` holds the buyer id while
  the request is in flight. Only the final state (null) is stated.
- Payload entries that are `null`, and names that are not strings (on which
  `toLowerCase` would throw), are not modelled. Buyer keys other than `id`, `name` and
  `status` are string-valued and copied through.
- Auth.Browser.StoreAuthToken: storage writes are taken to succeed. The source's
  `try/catch` around a failing `setItem` is not modelled.
- Asynchronous `FileReader` previews, drag state, mock `setTimeout` delays and the
  login-response field extraction are not part of this model. The static demo arrays
  of the other pages are not part of it either.
