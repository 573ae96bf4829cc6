# FreshBulk order core in Dafny

FreshBulk is a bulk-order storefront for produce: buyers compose an order
from the catalogue, the server prices it and stores it, buyers track and
cancel their orders, and an admin searches, pages through and re-labels
orders and edits the product list. Under the UI and CRUD glue sits a small
amount of deterministic logic, and this project models exactly that logic
as pure functions over immutable records:

- **Order form** (`order_form.dfy`, module `OrderForm`): the phone-number
  check, the Select/Remove toggle over cart lines keyed by product id, the
  range-guarded quantity change, the "add the product the form was opened
  from" step, the Save Details guard, and Place Order with its ordered
  checks and its reset.
- **Order endpoint** (`orders_route.dfy`, module `OrdersRoute`): presence
  checks on the posted body, line-by-line pricing against the catalogue
  (name and `price * quantity` from the catalogue, client prices ignored),
  all-or-nothing failure on an unknown product, the `"pending"` default
  status, and GET's 404 for an empty store.
- **Admin order console** (`orders_admin.dfy`, module `OrdersAdmin`): search
  by buyer name or id ANDed with an exact status filter, pages of 5,
  clamped Previous/Next, page reset on filter change, and the local status
  update.
- **Buyer tracking page** (`track_orders.dfy`, module `TrackOrders`): the
  per-buyer list, cancel, the pending-only Cancel link and status messages.
- **Item list** (`items_list.dfy`, module `ItemsList`): the order total, the
  count and the row numbering.
- **Product store** (`products_slice.dfy`, module `ProductsSlice`): the
  three-event fetch reducer.
- **Product editor** (`products_manage.dfy`, module `ProductsManage`): start,
  cancel and save of the inline editor, and delete.
- Shared: `types.dfy` (the Product and Order records), `status.dfy` (the
  status colour used by both order pages), `seqs.dfy` (`filter` and `slice`
  and their order facts), `text.dfy` (digits, lower-casing, `includes`,
  `trim`), `decimal.dfy` (integer to text and back), `wrappers.dfy` (Option).

Prices and quantities are integers. Status is free text: the server default
is `"pending"` while the admin drop-down offers `"Pending"`, `"In Progress"`
and `"Delivered"`, and no transition rule exists. Sign-in, confirmation
dialogs, browser storage writes and the outcome of each modelled network or
database call (success or failure, and for the product lookups, which ids
throw) enter the model as inputs; ids and timestamps assigned by the store
are parameters.

What the code checks, and what it does not:

- Order creation checks only that the buyer fields are non-empty and that
  `items` is present. It does not check the phone format, the quantity range
  or an empty list; an empty array is truthy and passes
  (`OrdersRoute.PostChecksPresenceOnly`).
- Status is free text. Order creation stores whatever status the client
  sends, and the per-order PUT route accepts any non-empty status. The admin
  drop-down offers only "Pending", "In Progress" and "Delivered", but any of
  them can be chosen at any time, including moving an order back
  (`OrdersAdmin.StatusCanMoveBackwards`).
- Cancelling is guarded only in the tracking page, which hides the Cancel
  link for statuses other than pending (`TrackOrders.CanCancel`); the cancel
  handler itself does not look at the status.

Three consequences of the code as written are proved as lemmas:
`OrdersAdmin.DefaultStatusMissedByPendingFilter` (orders created with the
default `"pending"` never match the admin's `"Pending"` filter, which compares
case-sensitively), `OrdersAdmin.UpdateCanStrandLastPage` (re-labelling the
last order under a status filter empties the current page and hides the
page controls) and `OrdersAdmin.EmptyStoreShowsLoadError` (with no orders
stored, GET answers 404 and the console shows its load error).

## Model

| member | source | states |
|---|---|---|
| `OrderForm.IsValidPhoneIff` | components/OrderForm.tsx:51 | the `^[0-9]{10}$` test accepts exactly the ten-character all-digit strings |
| `OrderForm.Toggle` | components/OrderForm.tsx:109-125 | an unselected product is appended at the end with quantity 1 and its id, name and price; a selected product's lines are removed and the other lines keep their order and every copy |
| `OrderForm.ToggleTwiceRestores` | components/OrderForm.tsx:109-125 | selecting an absent product and removing it again gives back the original cart |
| `OrderForm.ToggleTwiceResetsLine` | components/OrderForm.tsx:109-125 | removing and re-selecting a product moves it to the end with quantity 1 |
| `OrderForm.ToggleKeepsUniqueIds` | components/OrderForm.tsx:109-125 | the toggle never puts a product on two lines |
| `OrderForm.ToggleKeepsQuantities` | components/OrderForm.tsx:109-125 | the toggle keeps every quantity within 1..10 |
| `OrderForm.SetQuantity` | components/OrderForm.tsx:127-135 | a quantity outside 1..10 changes nothing; otherwise only the quantity of the matching line changes, with length, order and other fields kept |
| `OrderForm.SetQuantityKeepsInvariants` | components/OrderForm.tsx:127-135 | quantity changes keep quantities in range, ids unique and the set of selected products the same |
| `OrderForm.AddInitialProduct` | components/OrderForm.tsx:77-98 | the product the form was opened from is appended with quantity 1 exactly when no line has its id, and is in the cart afterwards |
| `OrderForm.AddInitialProductIdempotent` | components/OrderForm.tsx:77-98 | running the initial-product step twice is the same as once |
| `OrderForm.ApplyUsername` | components/OrderForm.tsx:100-107 | a signed-in user's non-empty user name replaces the buyer name and nothing else |
| `OrderForm.SaveInfo` | components/OrderForm.tsx:137-154 | details are refused exactly when the contact or address is empty or the phone is invalid; a save stores name, contact and address and closes the editor |
| `OrderForm.SaveInfoIgnoresBuyerName` | components/OrderForm.tsx:137-142 | the buyer name has no effect on whether details can be saved |
| `OrderForm.Submit` | components/OrderForm.tsx:156-192 | refusals come in the order not signed in, missing buyer field, invalid phone, empty cart; only then is the whole form posted; after a successful post the cart is empty and the buyer fields are kept, otherwise the form is unchanged |
| `OrderForm.SubmitPostedPassesSaveGuard` | components/OrderForm.tsx:158-174 | a form that Place Order posts also passes the Save Details guard |
| `OrderForm.InvalidPhoneRefusedEverywhere` | components/OrderForm.tsx:137-174 | an invalid contact number is refused by both Save Details and Place Order |
| `OrderForm.ResubmitAfterPlacedRefused` | components/OrderForm.tsx:171-186 | right after a placed order, placing again is refused for an empty cart |
| `OrdersRoute.PriceLines` | app/api/orders/route.ts:20-39 | pricing succeeds exactly when every product id's lookup returns a product, giving one line per request line in order with the catalogue name and catalogue price times quantity; otherwise it stops at an id that did not resolve, preceded only by ids that did, and says whether its lookup threw or found nothing |
| `OrdersRoute.PriceLinesReportsFirstUnknown` | app/api/orders/route.ts:22-31 | the id reported is the first one that does not resolve |
| `OrdersRoute.PriceLinesIgnoresClientPrice` | app/api/orders/route.ts:22-38 | requests that agree on ids and quantities are priced identically, whatever prices the client sent |
| `OrdersRoute.CreatedStatus` | app/api/orders/route.ts:46 | the stored status is the client's non-empty status, otherwise "pending" |
| `OrdersRoute.Post` | app/api/orders/route.ts:6-57 | a missing or empty buyer field or missing items gives 400; at the first product that does not resolve, a lookup that found nothing gives 400 naming that id and one that threw gives 500; a store failure gives 500; only a success appends the order, with the buyer fields, priced lines and status, and every failure leaves the store unchanged |
| `OrdersRoute.PostChecksPresenceOnly` | app/api/orders/route.ts:13-18 | a malformed phone number and quantities 0 and 250 are accepted, and an empty item list stores an order with no lines |
| `OrdersRoute.PostPricingExample` | app/api/orders/route.ts:33-38 | three units at price 10 are stored as total 30 although the client claimed price 1, with status "pending" |
| `OrdersRoute.PostLookupThrowsExample` | app/api/orders/route.ts:22-55 | a product id whose lookup throws answers 500, even when a later id is unknown |
| `OrdersRoute.PostIsAtomic` | app/api/orders/route.ts:20-55 | a product that does not resolve anywhere in the request gives 400 or 500 and stores nothing |
| `OrdersRoute.Get` | app/api/orders/route.ts:59-77 | GET answers 500 exactly when the query throws, otherwise 404 exactly when the store is empty, and otherwise returns every stored order |
| `OrdersRoute.PostThenGet` | app/api/orders/route.ts:41-69 | after a created order, the next successful GET returns the earlier orders and the created one (in insertion order, see Left out) |
| `ItemsList.Total` | components/ItemsList.tsx:16 | the total of an empty list is 0 |
| `ItemsList.TotalIsSum` | components/ItemsList.tsx:16 | the left-fold total equals the sum of the line totals |
| `ItemsList.TotalAppend` | components/ItemsList.tsx:16 | appending a line raises the total by that line's total price |
| `ItemsList.Rows` | components/ItemsList.tsx:41-52 | one row per line, numbered 1..n in list order, showing that line's name, quantity and total |
| `ItemsList.ItemCount` | components/ItemsList.tsx:22 | the count on the button equals the number of rows |
| `Seqs.FilterCopies` | app/admin/orders-manage/page.tsx:75 | a filter keeps each element it accepts exactly as many times as it occurs, and no copy of any other |
| `OrdersAdmin.FilteredOrders` | app/admin/orders-manage/page.tsx:75-80 | an order is listed exactly when (its lower-cased buyer name contains the lower-cased term or its id contains the term) and (no status filter or its status equals the filter); the list is a subsequence of the orders and keeps every copy of a listed order |
| `OrdersAdmin.EmptyFiltersShowAll` | app/admin/orders-manage/page.tsx:75-80 | an empty term and no status filter list every order in order |
| `OrdersAdmin.StatusFilterKeepsMatching` | app/admin/orders-manage/page.tsx:75-80 | with an empty term, a list in which every order has the filtered status is listed whole, in order |
| `OrdersAdmin.DefaultStatusMissedByPendingFilter` | app/admin/orders-manage/page.tsx:79 | an order created with the default status is not listed under the "Pending" filter |
| `OrdersAdmin.TotalPages` | app/admin/orders-manage/page.tsx:82 | the page count is the ceiling of the filtered count over 5, and 0 only for no orders |
| `OrdersAdmin.PageOf` | app/admin/orders-manage/page.tsx:83-86 | page p shows the filtered orders from (p-1)*5 up to min(p*5, count), at most 5 |
| `OrdersAdmin.PageNonEmptyIff` | app/admin/orders-manage/page.tsx:82-86 | a page from 1 on has orders exactly when it is at most the page count |
| `OrdersAdmin.PagesCoverFiltered` | app/admin/orders-manage/page.tsx:82-86 | pages 1 to the page count, read in turn, are exactly the filtered orders |
| `OrdersAdmin.NavigationStaysInRange` | app/admin/orders-manage/page.tsx:217-233 | while the controls show, Previous (max(p-1,1)) and Next (min(p+1,pages)) land on a non-empty page in 1..pages |
| `OrdersAdmin.SetSearchTerm` | app/admin/orders-manage/page.tsx:112-115 | typing a term stores it and resets the page to 1, nothing else |
| `OrdersAdmin.SetStatusFilter` | app/admin/orders-manage/page.tsx:120-123 | choosing a status stores it and resets the page to 1, nothing else |
| `OrdersAdmin.PageStaysPositive` | app/admin/orders-manage/page.tsx:112-233 | filter changes and clicks never take the page below 1, and Next from a shown page keeps the controls shown |
| `OrdersAdmin.FetchOrders` | app/admin/orders-manage/page.tsx:43-53 | a successful load replaces the orders; a failed one keeps them and sets the error flag; loading ends and nothing else changes |
| `OrdersAdmin.EmptyStoreShowsLoadError` | app/admin/orders-manage/page.tsx:43-53 | loading from an empty store (404) or from a query that throws (500) sets the error flag and keeps the orders |
| `OrdersAdmin.UpdateOrderStatus` | app/admin/orders-manage/page.tsx:55-73 | after a successful update only the status of orders with that id changes, every other order and field is unchanged; afterwards the update marker is cleared and the error flag is false whatever the outcome |
| `OrdersAdmin.StatusCanMoveBackwards` | app/admin/orders-manage/page.tsx:62-65 | a delivered order can be set back to pending |
| `OrdersAdmin.UpdateCanStrandLastPage` | app/admin/orders-manage/page.tsx:62-86 | under a status filter, re-labelling the only order of page 2 empties that page and hides the controls although 5 orders remain listed |
| `Status.StatusColor` | app/admin/orders-manage/page.tsx:88-99 | delivered, in progress and pending (any case) get green, blue and yellow; every other status is gray |
| `Status.StatusColorIgnoresCase` | app/track-orders/page.tsx:87-98 | statuses differing only in letter case get the same colour |
| `Status.KnownStatusesColoured` | app/admin/orders-manage/page.tsx:88-99 | the drop-down statuses and the server default all get a non-gray colour |
| `TrackOrders.BuyerOrders` | app/track-orders/page.tsx:53 | the buyer's list is exactly the fetched orders whose buyer name equals the signed-in name, in fetched order, with every copy kept |
| `TrackOrders.FetchOrders` | app/track-orders/page.tsx:47-62 | a successful load sets both lists to the buyer's orders and clears the error; a failed one keeps them and sets the message |
| `TrackOrders.Search` | app/track-orders/page.tsx:64-66 | the search box records the id and never changes the displayed list |
| `TrackOrders.WithoutId` | app/track-orders/page.tsx:76-77 | removal keeps exactly the orders with another id, in order, with every copy kept |
| `TrackOrders.CancelOrder` | app/track-orders/page.tsx:68-85 | a declined confirmation changes nothing; a confirmed successful cancel removes that id from both lists; a failed one keeps them; only the two lists and the cancel marker change |
| `TrackOrders.CancelKeepsBuyerScope` | app/track-orders/page.tsx:76-77 | after a cancel every listed order still belongs to the buyer and none has the cancelled id |
| `TrackOrders.CancelTwiceIsCancelOnce` | app/track-orders/page.tsx:76-77 | cancelling the same order twice equals cancelling it once |
| `TrackOrders.ListsStayInStep` | app/track-orders/page.tsx:54-77 | cancels and searches keep the full and displayed lists equal |
| `TrackOrders.StatusMessage` | app/track-orders/page.tsx:100-111 | pending, in progress and delivered (any case) map to their fixed messages; everything else to the unavailable message |
| `TrackOrders.CancellableIffReceived` | app/track-orders/page.tsx:182 | the Cancel link shows exactly for the orders whose message says the order was received |
| `ProductsSlice.Reduce` | store/productsSlice.ts:28-40 | pending sets loading and clears the error keeping items; fulfilled clears loading and sets items keeping the error; rejected clears loading and sets the fixed error keeping items |
| `ProductsSlice.ReplayFromInitial` | store/productsSlice.ts:7-40 | from the initial state, items are the latest payload, loading holds exactly after a pending event, and the error shows exactly when a failure followed the last start |
| `ProductsSlice.PendingThenFulfilled` | store/productsSlice.ts:29-36 | pending then fulfilled leaves the payload, loading false and no error |
| `ProductsSlice.RejectedKeepsItems` | store/productsSlice.ts:29-40 | a failed fetch keeps the previous items |
| `ProductsManage.FetchProducts` | app/admin/products-manage/page.tsx:36-50 | a successful load replaces the products and clears the error flag; a failed one keeps them and sets it; loading ends and nothing else changes |
| `ProductsManage.StartEditing` | app/admin/products-manage/page.tsx:52-56 | the editor opens on the product with its name and a price text that reads back as its price |
| `ProductsManage.CancelEditing` | app/admin/products-manage/page.tsx:58-62 | the editor closes with both fields empty and nothing else changes |
| `ProductsManage.SaveEdit` | app/admin/products-manage/page.tsx:64-86 | a blank name or unreadable price sends nothing and changes nothing; otherwise the trimmed name and read price are sent, and the editor closes on success and stays open on failure; only the editor and the update marker change |
| `ProductsManage.BlankNameRefused` | app/admin/products-manage/page.tsx:65-68 | a white-space-only name is refused with no request and no change |
| `ProductsManage.EditThenSaveUnchanged` | app/admin/products-manage/page.tsx:52-75 | saving an untouched editor sends the product's id, trimmed name and own price |
| `ProductsManage.DeleteProduct` | app/admin/products-manage/page.tsx:88-106 | a declined confirmation changes nothing; a successful delete keeps exactly the products with another id, in order and with every copy; a failed one keeps the list; only the list and the delete marker change |
| `ProductsManage.DeleteAbsentKeepsList` | app/admin/products-manage/page.tsx:97 | deleting an id that is not listed leaves the list unchanged |
| `Checkout.ToRequest` | components/OrderForm.tsx:178 | the posted body carries the three buyer fields and every cart line's product id, quantity and client price in order, and no status |
| `Checkout.PostedFormPassesServerCheck` | components/OrderForm.tsx:155-178 | any form the page lets through to the post also passes the endpoint's presence check |
| `Checkout.PostedFormStoredAtCataloguePrices` | app/api/orders/route.ts:22-47 | a posted form whose product lookups all return a product is stored as pending with one line per cart line, each priced at catalogue price times quantity regardless of the client's price |
| `Decimal.IntToStringRoundTrip` | app/admin/products-manage/page.tsx:55 | the decimal text of an integer price reads back as that price |
| `Text.ContainsIffOccurs` | app/admin/orders-manage/page.tsx:77-78 | the substring scan finds a term exactly when it occurs at some position |
| `Text.TrimUnique` | app/admin/products-manage/page.tsx:65 | any way of writing the name as white space, text with non-space ends, white space, gives exactly the trimmed text |
| `Text.TrimKeepsInnerSpace` | app/admin/products-manage/page.tsx:65 | example: " a b " trims to "a b", keeping the inner space |
| `Text.Trim` | app/admin/products-manage/page.tsx:65 | the trimmed name is empty exactly when every character is white space, and otherwise is the name with only leading and trailing white space removed, neither starting nor ending with white space |

## Left out

- Network, database and connection caching (`axios`, Mongoose, `lib/dbConnect.ts`): each call's outcome is an input; the catalogue is a map and the ids whose lookup throws are a set.
- Sign-in and navigation: `isSignedIn` and the user name are inputs; the redirect after ordering is not modelled.
- Browser storage: loading the saved details (components/OrderForm.tsx:64-75) and resolving the tracking page's buyer name (app/track-orders/page.tsx:36-45) are not modelled; saving is a boolean outcome.
- Toasts, console output, spinners and the `disabled` attributes (under the Previous/Next formulas a disabled click would be a no-op anyway).
- Floating-point prices and `toFixed` formatting: prices are integers.
- A quantity text that `parseInt` reads as NaN passes the range guard in the source; quantities here are integers, so that path is not modelled.
- `parseInt` in the product editor is a parameter; `Decimal.ParseDecimal` covers only the text `toString` produces.
- `Text.ToLower`: lower-cases ASCII letters only, not the full Unicode mapping of `toLowerCase`.
- The order schema's own validation is folded into the store-outcome input; a request body that is not JSON (answered 500) and an `items` value that is not an array are not modelled.
- `OrdersRoute.Get`: the store is a sequence in insertion order and GET returns it as it stands; `Order.find()` has no sort, so the source does not promise this order, only which orders are returned.
- Ids and `createdAt` are parameters supplied by the store; date formatting is not modelled.
- The reload started after a product save is not awaited in the source; it is the separate `ProductsManage.FetchProducts` event.
- Concurrency: two admins updating one order race with last-write-wins; the model applies one event at a time.
- The per-order routes (GET/PUT/DELETE by id), product routes, the add-product form and presentation-only components are not part of this model.
