# Inventory management admin panel — a verified model of its core rules

The admin panel is a React front end for an inventory system of shops and one
or more workshops. Products sit in per-shop inventories. Stock moves between
shops as *dispatches*: a dispatch has a source shop, a destination shop, a list
of items and a status (`PENDING`, `RECIEVED` — the spelling the pages compare
against — or `CANCELLED`). Users have roles (`ADMIN`, `CEO`, `WORKSHOP_MANAGER`,
`SHOP_MANAGER`, `USER`, ...) that decide what they see.

This Dafny project models the decision logic of the panel's core screens:

- **Dispatch form** (`dispatch_form.dfy`). The editable list of product rows is
  the class `ProductRows`, with methods to add, remove and update a row. Each
  method is specified by a pure function (`AddedRows`, `RemovedRows`,
  `UpdatedRows`). Row ids stay distinct and the list never becomes empty.
  `Submit` runs the submit validation in the source's order and builds the
  dispatch request. The module also has the "available products" filter for a
  row's drop-down and the two summary numbers.
- **Dispatch list** (`dispatch_list.dfy`): the status/shop filter, the per-dispatch
  item total, the accept/reject/cancel actions (offered only on pending
  dispatches), the status badge and the empty-table message.
- **Inventory list** (`inventory.dfy`): the stock label (`getStatus`), the filter
  and the empty-table message.
- **Dashboards** (`shop_dashboard.dfy`, `workshop_dashboard.dfy`,
  `admin_dashboard.dfy`): the statistics cards, the low-stock and out-of-stock
  lists, the stock label of each table row, the alert banner, the five most
  recent dispatches and their colour.
- **Workshop management** (`workshop_management.dfy`): the list of workshops.
- **Role-based access** (`navigation.dfy`, `route_guard.dfy`, `login.dfy`):
  - the menu table and the `hasAccess` rule;
  - the menu a user sees, with parents pruned to their accessible children;
  - the sub-menu and mobile-menu state (the class `NavigationState`);
  - the route guard;
  - where a successful login lands each role.

Shared pieces: `wrappers.dfy` (`Option`, `Result`), `seqs.dfy` (a generic
order-preserving `Filter` with its membership and multiset contract, the
subsequence relation, `MapSeq`, `SumOf`) and `domain.dfy` (entity records,
status constants, quantity totals, pending dispatches).

JavaScript values are modelled as follows:

- An unset form field or filter (`""`, falsy in JavaScript) is the empty string.
- An optional numeric field or role is an `Option`.
- Numbers are unbounded integers.

## Model

| member | source | states |
|---|---|---|
| Domain.PendingDispatches | src/pages/dashboard/ShopDashboard.jsx:77-79 | the pending dispatches, in order: exactly those whose status is PENDING, each with its original multiplicity |
| Domain.TotalQuantityAppend | src/pages/dashboard/AdminDashboard.jsx:38-41 | the summed quantity of two concatenated record lists is the sum of their totals |
| Domain.TotalQuantity | src/pages/dashboard/ShopDashboard.jsx:69-72 | the `totalInventory` reduce (also WorkshopDashboard.jsx:68-71 and AdminDashboard.jsx:38-41): not negative when no quantity is negative, zero when every quantity is zero |
| Domain.ItemTotal | src/pages/dispatch/Dispatch.jsx:160-163 | the per-dispatch item total (also ShopDashboard.jsx:272): not negative when no quantity is negative, and at least the item count when every quantity is at least 1 |
| DispatchForm.AddedRows | src/pages/dispatch/DispatchProducts.jsx:44-49 | adding a row keeps all rows and appends one blank row (no product, no quantity) with the new id |
| DispatchForm.RemovedRows | src/pages/dispatch/DispatchProducts.jsx:51-55 | removal is refused while only one row is left; otherwise exactly the rows with another id remain, in order and with their multiplicity; a non-empty list of distinct ids never becomes empty |
| DispatchForm.DistinctIdsRemoveOne | src/pages/dispatch/DispatchProducts.jsx:53 | with distinct ids, filtering out one id removes at most one row |
| DispatchForm.RemoveOneExact | src/pages/dispatch/DispatchProducts.jsx:53 | with distinct ids, removing an id that is present shortens the list by exactly one |
| DispatchForm.UpdatedRows | src/pages/dispatch/DispatchProducts.jsx:57-63 | an edit changes only the named field of the row with the given id; every other row and field is unchanged |
| DispatchForm.AddedRowsKeepDistinctIds | src/pages/dispatch/DispatchProducts.jsx:44-49 | adding a row with an unused id keeps row ids distinct |
| DispatchForm.RemovedRowsKeepDistinctIds | src/pages/dispatch/DispatchProducts.jsx:51-55 | removing a row keeps row ids distinct |
| DispatchForm.FilterPreservesDistinctIds | src/pages/dispatch/DispatchProducts.jsx:53 | any filter of a list with distinct ids has distinct ids |
| DispatchForm.UpdatedRowsKeepDistinctIds | src/pages/dispatch/DispatchProducts.jsx:57-63 | editing a row never changes ids, so they stay distinct |
| DispatchForm.AlertMessage | src/pages/dispatch/DispatchProducts.jsx:68-97 | the alert text of each refusal (lines 69, 74, 83 and 94); never empty |
| DispatchForm.AlertMessagesDistinct | src/pages/dispatch/DispatchProducts.jsx:68-97 | two refusals show the same alert iff they are the same refusal |
| DispatchForm.IsIncompleteRow | src/pages/dispatch/DispatchProducts.jsx:78-80 | the invalid-row test; a row passes it iff it has a product and a quantity above 0 as the summary counts it |
| DispatchForm.ProductIds | src/pages/dispatch/DispatchProducts.jsx:88 | the product ids of the rows, position by position |
| DispatchForm.IndexOf | src/pages/dispatch/DispatchProducts.jsx:90 | `indexOf`: -1 exactly when absent, otherwise the first position holding the value |
| DispatchForm.DuplicatesFromEmpty | src/pages/dispatch/DispatchProducts.jsx:89-91 | the `indexOf(id) !== index` filter from position i on is empty iff each later id first occurs at its own position |
| DispatchForm.DuplicatesFrom | src/pages/dispatch/DispatchProducts.jsx:89-91 | the duplicate filter from position i on: no longer than the rest of the list, and each value it lists occurs again after its first occurrence |
| DispatchForm.DuplicateProducts | src/pages/dispatch/DispatchProducts.jsx:89-91 | `duplicateProducts`: no longer than the id list, and every value it lists is an id that occurs again after its first occurrence, so at least twice |
| DispatchForm.DuplicateProductsEmptyIff | src/pages/dispatch/DispatchProducts.jsx:88-92 | the duplicate list is empty iff the product ids are pairwise distinct |
| DispatchForm.BuildItems | src/pages/dispatch/DispatchProducts.jsx:103-106 | one request item per row, with the row's product id and quantity |
| DispatchForm.Submit | src/pages/dispatch/DispatchProducts.jsx:65-107 | each refusal happens exactly when its check is the first to fail (missing shop, same shop, incomplete row, duplicate product); an accepted request has the chosen distinct shops and one item per row, with a product, a positive quantity and pairwise distinct products |
| DispatchForm.SelectedProductIds | src/pages/dispatch/DispatchProducts.jsx:122-124 | `selectedProductIds`: an id is among them iff some row holds it as a non-empty product other than the current one |
| DispatchForm.AvailableProducts | src/pages/dispatch/DispatchProducts.jsx:121-129 | a row may choose exactly the products, in catalogue order, that no other product-holding row has chosen (a row holding the current product does not block it) |
| DispatchForm.ChoosingAvailableKeepsDistinct | src/pages/dispatch/DispatchProducts.jsx:121-129 | picking a row's product from its available list keeps the chosen products pairwise distinct |
| DispatchForm.TotalItems | src/pages/dispatch/DispatchProducts.jsx:131-134 | `totalItems`, an empty quantity counting as 0: zero when no row has a quantity, at least the row count when every row is complete |
| DispatchForm.ValidProductCount | src/pages/dispatch/DispatchProducts.jsx:135 | the number of rows with a product never exceeds the number of rows |
| DispatchForm.SameSum | src/pages/dispatch/DispatchProducts.jsx:131-134 | items copied quantity by quantity from the rows have the rows' total |
| DispatchForm.AcceptedRequestTotals | src/pages/dispatch/DispatchProducts.jsx:131-135 | for an accepted submission the request's item total equals the form's total, every row counts as a valid product, and the total is at least the row count |
| DispatchForm.AddedRowEffects | src/pages/dispatch/DispatchProducts.jsx:44-49 | a new blank row changes neither summary number, and with valid shops it makes the form refuse as incomplete |
| DispatchForm.ProductRows.constructor | src/pages/dispatch/DispatchProducts.jsx:16-18 | the form starts with one blank row |
| DispatchForm.ProductRows.AddRow | src/pages/dispatch/DispatchProducts.jsx:44-49 | the rows become AddedRows of the old rows; ids stay distinct |
| DispatchForm.ProductRows.RemoveRow | src/pages/dispatch/DispatchProducts.jsx:51-55 | the rows become RemovedRows of the old rows; unchanged with one row; exactly one shorter when the id is present among several |
| DispatchForm.ProductRows.UpdateRow | src/pages/dispatch/DispatchProducts.jsx:57-63 | the rows become UpdatedRows of the old rows; ids stay distinct, the list non-empty |
| DispatchList.ClearFilters | src/pages/dispatch/Dispatch.jsx:124-128 | both filters are reset to unset |
| DispatchList.FilteredDispatches | src/pages/dispatch/Dispatch.jsx:23-32 | the listed dispatches are, in order and with multiplicity, exactly those matching the status filter (if set) and touching the shop filter as source or destination (if set); all when no filter is set |
| DispatchList.ClearedFiltersShowAll | src/pages/dispatch/Dispatch.jsx:124-128 | after clearing the filters every dispatch is listed |
| DispatchList.StatusFilterNarrows | src/pages/dispatch/Dispatch.jsx:25 | a set status filter lists exactly the shop-filtered dispatches with that status |
| DispatchList.TotalItemsSplit | src/pages/dispatch/Dispatch.jsx:160-163 | the Total Items cell (`ItemTotal` of the items) splits over any division of the item list |
| DispatchList.ActionsFor | src/pages/dispatch/Dispatch.jsx:199-226 | accept/reject/cancel are offered iff the dispatch is PENDING, "No actions" otherwise |
| DispatchList.ActionsUnderStatusFilter | src/pages/dispatch/Dispatch.jsx:199-226 | filtering on PENDING makes every listed row actionable, filtering on another status none |
| DispatchList.ActionableRowsArePending | src/pages/dispatch/Dispatch.jsx:199-226 | a listed row offers actions iff it is among the pending dispatches |
| DispatchList.StatusBadge | src/pages/dispatch/Dispatch.jsx:58-73 | yellow iff PENDING, green iff RECIEVED, red iff CANCELLED, gray for any other status value |
| DispatchList.EmptyMessage | src/pages/dispatch/Dispatch.jsx:232-238 | a message shows iff nothing is listed: "No dispatches found" iff there are no dispatches at all, the filter message otherwise |
| DispatchList.NoMatchMessageNeedsAFilter | src/pages/dispatch/Dispatch.jsx:232-238 | the filter message only appears while some filter is set |
| Inventory.GetStatus | src/pages/inventory/Inventory.jsx:30-34 | "Out of Stock" iff the quantity is 0, "Low Stock" iff it is non-zero and below 10, "In Stock" iff it is at least 10 |
| Inventory.ClearFilters | src/pages/inventory/Inventory.jsx:101-105 | both filters are reset to unset |
| Inventory.FilteredInventories | src/pages/inventory/Inventory.jsx:21-28 | the listed records are, in order and with multiplicity, exactly those of the chosen shop (if set) whose label equals the chosen status (if set); all when no filter is set |
| Inventory.UnknownStatusHidesAll | src/pages/inventory/Inventory.jsx:24-25 | a status filter that is none of the three labels lists nothing |
| Inventory.StatusFiltersPartition | src/pages/inventory/Inventory.jsx:21-34 | the three status filters split the shop-filtered records: their counts add up to the unfiltered count |
| Inventory.EmptyMessage | src/pages/inventory/Inventory.jsx:165-171 | a message shows iff nothing is listed: "No inventories found" iff there are no records, the filter message otherwise |
| ShopDashboard.OutOfStockItems | src/pages/dashboard/ShopDashboard.jsx:73 | exactly the records with quantity 0, in order and with multiplicity |
| ShopDashboard.LowStockItems | src/pages/dashboard/ShopDashboard.jsx:74-76 | exactly the records with quantity strictly between 0 and 10, in order; none of them is out of stock |
| ShopDashboard.Stats | src/pages/dashboard/ShopDashboard.jsx:69-79 | the cards: total stock (equal to the total over non-zero records), products in stock as records minus out-of-stock (the count of non-zero records), pending incoming dispatches, out-of-stock count |
| ShopDashboard.OutOfStockAddsNothing | src/pages/dashboard/ShopDashboard.jsx:69-73 | out-of-stock records contribute nothing to the total stock |
| ShopDashboard.StockedCount | src/pages/dashboard/ShopDashboard.jsx:119 | records minus out-of-stock records is the number of records with non-zero quantity |
| ShopDashboard.RowLabel | src/pages/dashboard/ShopDashboard.jsx:213-235 | the table label: out iff 0, low iff strictly between 0 and 10, in stock iff negative or at least 10 |
| ShopDashboard.RowLabelMatchesLists | src/pages/dashboard/ShopDashboard.jsx:213-235 | a record's table label is out (low) iff it is in the out-of-stock (low-stock) list |
| ShopDashboard.RowLabelVersusGetStatus | src/pages/dashboard/ShopDashboard.jsx:215-216 | the shop table and the inventory page agree on a label iff the quantity is not negative; a negative one is "In Stock" here, "Low Stock" there |
| ShopDashboard.ShowAlert | src/pages/dashboard/ShopDashboard.jsx:154 | the alert shows iff some record has a quantity from 0 up to 9 |
| WorkshopDashboard.LowStockItems | src/pages/dashboard/WorkshopDashboard.jsx:72 | exactly the records with quantity below 10, in order and with multiplicity |
| WorkshopDashboard.Stats | src/pages/dashboard/WorkshopDashboard.jsx:68-75 | the cards: total stock, record count, pending incoming dispatches, low-stock count |
| WorkshopDashboard.LowStockVersusShop | src/pages/dashboard/WorkshopDashboard.jsx:72 | the workshop's low-stock list holds, as a multiset, the shop's low-stock, out-of-stock and negative records together |
| WorkshopDashboard.LowStockCountVersusShop | src/pages/dashboard/WorkshopDashboard.jsx:72 | without negative quantities, the workshop low-stock count is the shop's low-stock plus out-of-stock count |
| WorkshopDashboard.ZeroIsLowOnlyForWorkshop | src/pages/dashboard/WorkshopDashboard.jsx:72 | an empty record is low stock on the workshop dashboard but not on the shop dashboard |
| WorkshopDashboard.RowLabel | src/pages/dashboard/WorkshopDashboard.jsx:194-215 | the table label: out iff 0, low iff non-zero and below 10, in stock iff at least 10 |
| WorkshopDashboard.RowLabelIsGetStatus | src/pages/dashboard/WorkshopDashboard.jsx:194-215 | the workshop table labels exactly as the inventory page does |
| WorkshopDashboard.RowLabelMatchesLowStock | src/pages/dashboard/WorkshopDashboard.jsx:194-215 | a record is labelled other than "In Stock" iff it is in the low-stock list |
| AdminDashboard.Stats | src/pages/dashboard/AdminDashboard.jsx:36-55 | the cards count shops, products, dispatches, employees and users, sum the stock, and count pending dispatches (at most all, and all iff every dispatch is pending) |
| AdminDashboard.AllPendingIff | src/pages/dashboard/AdminDashboard.jsx:42-44 | the pending count equals the dispatch count iff every dispatch is pending |
| AdminDashboard.PendingShorter | src/pages/dashboard/AdminDashboard.jsx:42-44 | one non-pending dispatch makes the pending count smaller than the total |
| AdminDashboard.TotalSplitsByShop | src/pages/dashboard/AdminDashboard.jsx:38-41 | the total stock is the stock of any one shop plus that of all the others |
| AdminDashboard.RecentDispatches | src/pages/dashboard/AdminDashboard.jsx:179 | the first min(5, n) dispatches; empty iff there are none |
| AdminDashboard.ShowNoDispatchesYet | src/pages/dashboard/AdminDashboard.jsx:208-210 | the placeholder shows iff the recent list is empty |
| AdminDashboard.StatusColour | src/pages/dashboard/AdminDashboard.jsx:193-197 | yellow iff PENDING, green iff RECIEVED, red for every other status |
| AdminDashboard.StatusColourVersusList | src/pages/dashboard/AdminDashboard.jsx:193-197 | the dashboard colour and the list badge agree iff the status is one of the three known ones ("RECEIVED" is red here, gray in the list) |
| WorkshopManagement.Workshops | src/pages/workshop/WorkshopManagement.jsx:10 | exactly the shops of type WORKSHOP, in order and with multiplicity |
| WorkshopManagement.EmptyMessage | src/pages/workshop/WorkshopManagement.jsx:57-63 | "No workshops found" shows iff no shop is a workshop |
| Navigation.HasAccess | src/components/common/Navigation.jsx:69-73 | unrestricted entries are open to all; otherwise a user without a role is refused, and a user with a role is admitted iff the role is listed |
| Navigation.Prune | src/components/common/Navigation.jsx:85-93 | a link is unchanged; a parent keeps its other fields and exactly its accessible children, in order |
| Navigation.MenuItems | src/components/common/Navigation.jsx:75-93 | no longer than the table; every entry shown is a shown table entry after pruning |
| Navigation.PruneDeterminesShown | src/components/common/Navigation.jsx:76-84 | two parents that prune to the same entry are both shown or both hidden |
| Navigation.MenuLinkIff | src/components/common/Navigation.jsx:76-84 | a link of the table is in the menu iff the user may access it |
| Navigation.MenuParentIff | src/components/common/Navigation.jsx:77-82 | a parent of the table is in the menu (pruned) iff the user may access it or any of its children |
| Navigation.MenuPreservesOrder | src/components/common/Navigation.jsx:75-93 | the menu lists its entries in the table's order |
| Navigation.AllMenuItems | src/components/common/Navigation.jsx:17-66 | the `allMenuItems` role table, seven entries in order; every entry and every child names its roles |
| Navigation.Shown | src/components/common/Navigation.jsx:76-84 | the `filter` test: an entry is kept iff the user may access it or it is a parent whose pruned child list is non-empty |
| Navigation.NoRoleNoMenu | src/components/common/Navigation.jsx:71 | a user without a role sees an empty menu when every entry is restricted, as in the table |
| Navigation.ShopManagerAccess | src/components/common/Navigation.jsx:33-58 | a shop manager may access Inventory and Dispatch but not the Workshop entry itself or its other children |
| Navigation.ShopManagerSeesWorkshop | src/components/common/Navigation.jsx:77-82 | a shop manager sees the Workshop entry although not allowed it, through its children |
| Navigation.ShopManagerWorkshopChildren | src/components/common/Navigation.jsx:89 | for a shop manager the Workshop entry holds exactly Inventory and Dispatch |
| Navigation.Toggled | src/components/common/Navigation.jsx:95-96 | toggling a sub-menu flips it (an absent entry counts as closed) and keeps every other entry |
| Navigation.ToggleTwice | src/components/common/Navigation.jsx:95-96 | toggling the same sub-menu twice restores every sub-menu's state |
| Navigation.RenderedChildren | src/components/common/Navigation.jsx:113-124 | a parent renders all its children while its sub-menu is open and none while it is closed |
| Navigation.NavigationState.constructor | src/components/common/Navigation.jsx:12-13 | the mobile menu starts closed and no sub-menu is open |
| Navigation.NavigationState.ToggleSubMenu | src/components/common/Navigation.jsx:95-96 | the open-menu map becomes Toggled of the old one; other sub-menus and the mobile flag are unchanged |
| Navigation.NavigationState.ToggleMobileMenu | src/components/common/Navigation.jsx:168 | the mobile menu flag flips; the sub-menus are unchanged |
| Navigation.NavigationState.CloseMobileMenu | src/components/common/Navigation.jsx:120 | following a link closes the mobile menu; the sub-menus are unchanged |
| RouteGuard.Guard | src/components/common/ProtectedRoute.jsx:4-18 | to the login page iff there is no user; home iff roles are required and the user's role is not among them; the page otherwise |
| RouteGuard.GuardAgreesWithMenu | src/components/common/ProtectedRoute.jsx:13-15 | for a user with a role, a page guarded by a menu entry's roles opens iff the menu offers that entry |
| RouteGuard.SignedOutAlwaysToLogin | src/components/common/ProtectedRoute.jsx:8-10 | a visitor without a user always goes to the login page, even for entries the menu leaves unrestricted |
| Login.Landing | src/pages/auth/Login.jsx:21-35 | a failed login shows the error; ADMIN and CEO land on the admin dashboard, the two managers on their own dashboards, any other or missing role on "/" |
| Login.LandingMatchesMenu | src/pages/auth/Login.jsx:24-31 | after a successful login a user lands on a dashboard iff the menu offers that dashboard to the user |
| Login.LandingPassesGuard | src/pages/auth/Login.jsx:24-31 | the dashboard a user lands on admits the user when guarded by that dashboard's roles |

## Left out

- Fetching and saving through the context providers is not part of this model. This covers loading shops, products, inventories, dispatches, employees and users, creating a dispatch, and accepting, rejecting or cancelling one. So is the login request in the authentication context. The model takes the lists and the login result as parameters.
- Rendering, styling, date formatting, loading spinners and `alert`/`confirm` dialogs are left out. `AlertMessage` keeps only the alert texts.
- Row ids come from `Date.now()` and `Math.random()`. `ProductRows.AddRow` takes the new id as a parameter and requires it to be unused, which is what the clock and the random number provide in practice.
- DispatchProducts edit mode (lines 22-42) is left out. It fetches an existing dispatch and loads its items into the rows. A dispatch without items would leave no rows at all, which `ProductRows.Valid` rules out.
- DispatchForm.Submit: quantities are integers or absent, so `parseInt` truncating a fractional or malformed quantity string is not modelled. The pure function also accepts an empty row list, which the form itself never reaches (`ProductRows.Valid` keeps at least one row).
- JavaScript numbers are modelled as unbounded integers, without floating point.
- The dashboards pick "my" shop through `user.shopId`. The authentication context never sets that field, so in the source those pages wait forever. The model takes the shop's records and incoming dispatches as given.
- App.jsx does not use the modelled `components/common/ProtectedRoute.jsx`. It imports a guard from `component/ProtectedRoute` (App.jsx:7), which is not part of this model, and wraps only `/admin-dashboard` in it, without `allowedRoles` (App.jsx:28-37). Every other route is unguarded. `RouteGuard.Guard` models the modelled component for both forms of its props. `GuardAgreesWithMenu` states what a role-keyed guard would do.
- DispatchList.StatusBadge: statuses are taken to be ordinary status values. The source looks the status up in a plain object (`styles[status] || gray`), so a status naming an inherited object member such as "constructor" or "toString" would get a non-style value instead of gray. The model does not capture that.
- Inventory.jsx uses `getStatus` inside the filter before the declaration that defines it. That ordering hazard of JavaScript is not modelled.
- Logging out and the navigation bar's user display are left out, because they are I/O on the authentication context.
