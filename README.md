# Willows café manager — a Dafny model of the order, cart and staff-screen logic

Willows is a café ordering system. It has a Node/Express backend with
Sequelize tables and three React Native apps: the administrator app, the
client (kiosk) app and the inventory app. This project models the core of
it and proves properties of that model:

- **Backend order groups** (`OrderGroupRoutes`, `LegacyOrderGroupRoutes`,
  `OrderRules`):
  - POST checks every requested name against the `Item` table, rejecting unknown names with a 400 that lists them.
  - POST sums price × quantity and creates a "pendente" group plus one `OrderItem` per request line.
  - DELETE cascades to the group's items.
  - PATCH saves the new status. For "pronto" it also lowers the stock of every ingredient used by the group's items.
  - GET ordersbyuser selects one user's groups.
  - The tables are fields of an `OrderStore` class that the route methods update in place.
  - The loops of the source are `while` loops, proved against recursive specification functions.
- **Authentication** (`AuthRoutes`, `AuthMiddleware`, `AuthorizeAdmin`):
  - the login decision ladder;
  - signup field copying;
  - delete and role update by id;
  - the `Bearer` header check with JavaScript's `split(" ")`;
  - the exact `"admin"` role gate.
- **Cart** (`CartSlice`, `CartViews`, `QuantityModal`):
  - the Redux reducers, as functions and as an in-place `CartStore`;
  - the displayed totals and the order payload;
  - the `CartScreen`, `ActionModal` and both `PedidosScreen` handlers;
  - the quantity counter.
- **Staff screens** (`OrderLists`, `AdminManageOrders`, `ClientManageOrders`,
  `DeliveredOrders`, `Screens`, `SocketUpdates`):
  - the pending and delivered lists;
  - the day, week and month windows;
  - the press-animation scale map and the `usernamesMap`, both built in loops;
  - the live-update listener of `useSocket`.
- **Statistics** (`StatsScreen`, `DoughnutChart`, `ApiStats`):
  - the doughnut data (first five entries plus "Outros");
  - the chart's positive-value filter;
  - the top-three ranking cards;
  - the per-user API lookups.
- **Inventory** (`AdminInventory`, `InvInventory`, `Ingredients`, `Search`,
  `ItemForm`):
  - the accent-insensitive search, with the Unicode fold as a parameter;
  - fetching, and the delete flows: direct on the admin screen, select-then-confirm in the inventory app;
  - the ingredient-row editor of the create and edit forms. Rows are objects there, so the row being edited is changed in place.

JavaScript values that the screens handle without a fixed type are
`Js.Value`: `undefined`, `null`, booleans, integers and strings. `String(v)`
is `Js.ToText` and truthiness is `Js.Truthy`. An object is a map from keys to
values. Integers are unbounded; prices and quantities are integers.

Where code and description disagree, the model follows the code:
- The current POST stores `itemId` on each `OrderItem`, and PATCH reads `orderItem.Item` through it. The association that code needs is not declared in the files modelled here; the model assumes it (see `UpdateStatus` under "## Left out").
- `backend/src/app.js`, as included, does not create the Socket.IO server the routes emit on. The emits are left out (below).

## Model

| member | source | states |
|---|---|---|
| OrderRules.ItemNames | backend/src/routes/orderGroupRoutes.js:92 | one name per request line, in order |
| OrderRules.ValidNames | backend/src/routes/orderGroupRoutes.js:93-94 | a name is valid exactly when some inventory item has it |
| OrderRules.InvalidNames | backend/src/routes/orderGroupRoutes.js:95-97 | the unknown names, in request order, each as often as requested; empty exactly when every line names an item |
| OrderRules.RejectionMessage | backend/src/routes/orderGroupRoutes.js:99-105 | the 400 message starts with the fixed prefix and, for one name, is prefix + name |
| OrderRules.FindByName | backend/src/routes/orderGroupRoutes.js:110 | `find` by name: none exactly when the name is unknown, otherwise the first item with that name |
| OrderRules.FindById | backend/src/routes/orderGroupRoutes.js:296 | lookup by primary key: none exactly when no item has the id |
| OrderRules.TotalAppend | backend/src/routes/orderGroupRoutes.js:107-112 | the total of two runs of lines is the sum of their totals |
| OrderRules.TotalPrice | backend/src/routes/orderGroupRoutes.js:107-112 | the accumulator loop computes the sum of price × quantity over the lines |
| OrderGroupRoutes.ItemsOf | backend/src/routes/orderGroupRoutes.js:133-135 | a group's items are exactly the table rows pointing at it |
| OrderGroupRoutes.NewOrderItems | backend/src/routes/orderGroupRoutes.js:122-130 | one row per line, in order, with consecutive ids, the line's name and quantity, the new group and the first matching item's id |
| OrderGroupRoutes.ItemsOfNewGroup | backend/src/routes/orderGroupRoutes.js:122-135 | after appending a new group's rows, the group's items are exactly those rows |
| OrderGroupRoutes.OtherGroupsKeepItems | backend/src/routes/orderGroupRoutes.js:181 | deleting one group's rows leaves every other group's items unchanged |
| OrderGroupRoutes.DeductRecipe | backend/src/routes/orderGroupRoutes.js:294-302 | the inner loop keeps the same set of ingredients |
| OrderGroupRoutes.Deduct | backend/src/routes/orderGroupRoutes.js:293-304 | the outer loop keeps the same set of ingredients |
| OrderGroupRoutes.DeductRecipeAmount | backend/src/routes/orderGroupRoutes.js:294-302 | one recipe lowers each existing ingredient by recipe quantity × ordered quantity, summed over its lines |
| OrderGroupRoutes.DeductAmount | backend/src/routes/orderGroupRoutes.js:292-304 | when every order item has its item, the loops run to the end and lower each ingredient by the group's total need |
| OrderGroupRoutes.DeductTwice | backend/src/routes/orderGroupRoutes.js:288-304 | marking a group "pronto" twice deducts its need twice: nothing guards against repetition |
| OrderGroupRoutes.AllHaveItemsTail | backend/src/routes/orderGroupRoutes.js:293 | the items after the first still all have their inventory item |
| OrderGroupRoutes.DeductStopsAtFirstMissing | backend/src/routes/orderGroupRoutes.js:293-310 | at the first order item without an item the loop throws: earlier deductions are kept and nothing later is deducted |
| OrderGroupRoutes.OrdersByUser | backend/src/routes/orderGroupRoutes.js:345-362 | 404 exactly when the user has no group; otherwise exactly the user's groups, each with its items |
| OrderGroupRoutes.OrderStore.CreateOrderItems | backend/src/routes/orderGroupRoutes.js:122-130 | the loop appends exactly `NewOrderItems` for the lines and advances the id counter by their number |
| OrderGroupRoutes.OrderStore.CreateGroup | backend/src/routes/orderGroupRoutes.js:85-142 | unknown names give 400 with the listed names and no change; otherwise a new "pendente" group with the computed total and its items, answered with 201 |
| OrderGroupRoutes.OrderStore.DeleteGroup | backend/src/routes/orderGroupRoutes.js:168-191 | unknown id gives 404 and no change; otherwise the group and exactly its rows are removed, with 200 |
| OrderGroupRoutes.OrderStore.DeductRecipeInPlace | backend/src/routes/orderGroupRoutes.js:294-302 | the in-place inner loop leaves the stock `DeductRecipe` describes |
| OrderGroupRoutes.OrderStore.DeductItems | backend/src/routes/orderGroupRoutes.js:293-304 | the in-place outer loop leaves the stock `Deduct` describes and reports whether it completed |
| OrderGroupRoutes.OrderStore.UpdateStatus | backend/src/routes/orderGroupRoutes.js:265-312 | unknown id gives 404; otherwise the status is saved first; "pronto" also deducts, and a missing item then gives 400 with the status kept |
| LegacyOrderGroupRoutes.ItemsOf | backend/src/routes/orderGroupRoutes.js.js:121-124 | a group's items are exactly the rows pointing at it |
| LegacyOrderGroupRoutes.NewOrderItems | backend/src/routes/orderGroupRoutes.js.js:114-120 | one row per line, with consecutive ids, the line's name and quantity, and the new group; no item link |
| LegacyOrderGroupRoutes.ItemsOfNewGroup | backend/src/routes/orderGroupRoutes.js.js:114-124 | the new group's items are exactly the appended rows |
| LegacyOrderGroupRoutes.OrderStore.CreateOrderItems | backend/src/routes/orderGroupRoutes.js.js:114-120 | the loop appends exactly `NewOrderItems` |
| LegacyOrderGroupRoutes.OrderStore.CreateGroup | backend/src/routes/orderGroupRoutes.js.js:83-130 | the same name check and total as the current version; on success a "pendente" group and its rows |
| LegacyOrderGroupRoutes.OrderStore.DeleteGroup | backend/src/routes/orderGroupRoutes.js.js:156-178 | 404 for an unknown id; otherwise the group and exactly its rows are removed |
| LegacyOrderGroupRoutes.OrderStore.UpdateStatus | backend/src/routes/orderGroupRoutes.js.js:249-268 | 404 for an unknown id; otherwise only the status changes, and there is no stock deduction |
| AuthRoutes.FindByUsername | backend/src/routes/authRoutes.js:109 | none exactly when no user has the name; otherwise the first user with it |
| AuthRoutes.Login | backend/src/routes/authRoutes.js:99-135 | missing fields give 400 before any lookup; unknown user 404; wrong password 400 exactly when the first match's hash does not compare; a token with the user's id and role and "1h" |
| AuthRoutes.LoginChecksFieldsFirst | backend/src/routes/authRoutes.js:102-107 | with a field missing, the answer does not depend on the table or the comparison |
| AuthRoutes.LoginTokenIff | backend/src/routes/authRoutes.js:109-130 | a token is issued exactly when both fields are present, the user exists and the password compares |
| AuthRoutes.SignupIgnoresRole | backend/src/routes/authRoutes.js:52-59 | the user `SignupFields` builds is the same whatever role the body carries: signup copies only username, email and password |
| AuthRoutes.IndexOfId | backend/src/routes/authRoutes.js:159 | `findByPk`: none exactly when no user has the id, otherwise the first index holding it |
| AuthRoutes.UserStore.DeleteUser | backend/src/routes/authRoutes.js:156-169 | 404 and no change for an unknown id; otherwise exactly the users with other ids remain |
| AuthRoutes.UserStore.UpdateRole | backend/src/routes/authRoutes.js:204-219 | 404 and no change for an unknown id; otherwise only that user's role changes |
| AuthMiddleware.SplitOnSpace | backend/src/middleWare/authMiddleware.js:14 | `split(" ")` gives at least one piece and no piece holds a space |
| AuthMiddleware.JoinSplit | backend/src/middleWare/authMiddleware.js:14 | joining the pieces with single spaces gives back the string |
| AuthMiddleware.SplitNoSpace | backend/src/middleWare/authMiddleware.js:14 | a string without spaces is one piece |
| AuthMiddleware.SplitAfterSpace | backend/src/middleWare/authMiddleware.js:14 | a space-free word and a space contribute that word as the first piece |
| AuthMiddleware.SplitSinglePiece | backend/src/middleWare/authMiddleware.js:14 | there is a second piece exactly when the string holds a space |
| AuthMiddleware.TokenOf | backend/src/middleWare/authMiddleware.js:14 | `split(" ")[1]` exists exactly when the header holds a space |
| AuthMiddleware.BearerToken | backend/src/middleWare/authMiddleware.js:6-14 | for "Bearer " + t the token is t up to its first space, and t itself when it has none |
| AuthMiddleware.Authenticate | backend/src/middleWare/authMiddleware.js:3-24 | 401 without a "Bearer " header; 403 exactly when verification fails; otherwise proceed with the decoded claims |
| AuthMiddleware.Exchange.AuthenticateToken | backend/src/middleWare/authMiddleware.js:3-24 | either one response with the rejection and no `next`, or `req.user` set and `next` called once |
| AuthorizeAdmin.Gate | backend/src/middleWare/authorizeAdmin.js:2-10 | passes exactly when the role is "admin", otherwise 403 with the fixed message |
| AuthorizeAdmin.CapitalisedAdminRefused | backend/src/middleWare/authorizeAdmin.js:3 | "Admin" is refused: the comparison is exact |
| AuthorizeAdmin.AdminRouteReached | backend/src/middleWare/authorizeAdmin.js:2-10 | an admin route is reached exactly when the token verifies and its role is "admin" |
| CartSlice.FindLine | frontendAdmin/slices/cartSlice.js:8 | `find` by id: none exactly when absent, otherwise the first matching index |
| CartSlice.QuantityOf | frontendAdmin/slices/cartSlice.js:8-13 | a product not in the cart has quantity 0 |
| CartSlice.Added | frontendAdmin/slices/cartSlice.js:7-14 | a present product gains one unit and nothing else changes; otherwise a new line with quantity 1 at the end |
| CartSlice.Incremented | frontendAdmin/slices/cartSlice.js:15-20 | the matching line gains one unit; every other line is unchanged |
| CartSlice.Decremented | frontendAdmin/slices/cartSlice.js:21-26 | the matching line loses one unit only while above 1; no line is ever removed |
| CartSlice.FindLineUnique | frontendAdmin/slices/cartSlice.js:8 | in a cart with unique ids, looking up a line's id finds that line |
| CartSlice.ReduceKeepsValid | frontendAdmin/slices/cartSlice.js:6-28 | every reducer keeps ids unique and quantities at least 1 |
| CartSlice.ReduceTouchesOneLine | frontendAdmin/slices/cartSlice.js:7-26 | lines for other ids are unchanged by the three line reducers |
| CartSlice.ReduceLength | frontendAdmin/slices/cartSlice.js:6-28 | add grows by at most one line, increment and decrement keep the length, and clear empties the cart |
| CartSlice.ReduceQuantities | frontendAdmin/slices/cartSlice.js:6-28 | each product's quantity after each reducer |
| CartSlice.CartStore.constructor | frontendAdmin/slices/cartSlice.js:5 | the initial state is the empty cart |
| CartSlice.CartStore.AddToCart | frontendAdmin/slices/cartSlice.js:7-14 | the in-place reducer leaves `Added` of the old cart |
| CartSlice.CartStore.IncrementQuantity | frontendAdmin/slices/cartSlice.js:15-20 | the in-place reducer leaves `Incremented` of the old cart |
| CartSlice.CartStore.DecrementQuantity | frontendAdmin/slices/cartSlice.js:21-26 | the in-place reducer leaves `Decremented` of the old cart |
| CartSlice.CartStore.ClearCart | frontendAdmin/slices/cartSlice.js:27 | the cart is empty |
| CartSlice.CartStore.Dispatch | frontendAdmin/slices/cartSlice.js:6-28 | the store holds the reducer's result for the action |
| CartViews.CartTotal | frontendAdmin/screens/CartScreen.js:189 | the empty cart totals 0 |
| CartViews.CartTotalUpdate | frontendAdmin/components/ActionModal.js:50-53 | replacing a line moves the total by the difference of the subtotals |
| CartViews.SubtotalStep | frontendAdmin/components/ActionModal.js:44-46 | d more units move a subtotal by d × price |
| CartViews.TotalStep | frontendAdmin/components/ActionModal.js:50-53 | d more units of one line move the total by d × price |
| CartViews.AddedMovesTotal | frontendAdmin/screens/PedidosScreen.js:153-155 | adding a product raises the total by its price, or by the stored line's price when already present |
| CartViews.IncrementedMovesTotal | frontendAdmin/components/ActionModal.js:24-26 | "+" raises the total by the line's price |
| CartViews.DecrementedMovesTotal | frontendAdmin/components/ActionModal.js:28-30 | "-" lowers the total by the line's price only while it holds more than one unit |
| CartViews.OrderPayload | frontendAdmin/screens/CartScreen.js:68-71 | one `{nome, quantidade}` per cart line, in order |
| CartViews.PayloadAccepted | frontendAdmin/screens/CartScreen.js:68-74 | the backend accepts the payload exactly when every cart line names an inventory item |
| CartViews.PayloadTotal | frontendAdmin/screens/CartScreen.js:189 | when cart prices agree with the inventory, the backend's total equals the total the cart shows |
| CartViews.CartScreen.HandleConfirm | frontendAdmin/screens/CartScreen.js:57-82 | an empty cart only alerts; otherwise the payload is sent; the cart is cleared and the screen left only on success |
| CartViews.CartScreen.HandleCancel | frontendAdmin/screens/CartScreen.js:84-88 | always clears the cart, goes back and alerts; nothing is sent |
| CartViews.PressEffect | frontendAdmin/components/ActionModal.js:24-84 | applied through the reducer, the action `Press` dispatches gives the pressed row one more unit for "+" and one less but never below 1 for "-", and changes no other row; confirm, back and cancel dispatch nothing |
| CartViews.QuantityButtonTouchesOnlyItsRow | frontendAdmin/components/ActionModal.js:24-53 | a quantity button leaves other rows unchanged and moves the total by at most the row's price |
| CartViews.OrderScreen.constructor | frontendAdmin/screens/PedidosScreen.js:35-38 | modal hidden, empty search and no items |
| CartViews.OrderScreen.FetchInventoryItems | frontendClient/screens/PedidosScreen.js:50-58 | items and the shown list become the fetched list; a failure changes nothing |
| CartViews.OrderScreen.FetchAndSearch | frontendClient/screens/PedidosScreen.js:46-58 | after a fetch and the effect it triggers, the shown list is `Search` over the fetched items with the text already typed; a failure changes nothing |
| CartViews.OrderScreen.HandleSearch | frontendAdmin/screens/PedidosScreen.js:133-151 | `searchText` becomes the text and the shown list is `Search` over the items |
| CartViews.OrderScreen.HandleCloseModal | frontendClient/screens/PedidosScreen.js:89-92 | hides the modal and clears the cart |
| CartViews.OrderScreen.HandleBackModal | frontendAdmin/screens/PedidosScreen.js:166-168 | hides the modal and keeps the cart |
| CartViews.OrderScreen.HandleConfirmOrder | frontendClient/screens/PedidosScreen.js:98-119 | the payload is always sent, even for an empty cart; cleared and closed on success, unchanged on failure |
| QuantityModal.Step | frontendAdmin/components/QuantityModal.js:18-24 | "-" never gives less than 1 or less than q-1, and gives one of the two; "+" gives q+1; a counter of at least 1 stays at least 1 |
| QuantityModal.PressesKeepAtLeastOne | frontendAdmin/components/QuantityModal.js:18-24 | from at least 1 no run of presses goes below 1, or above q + the number of presses |
| QuantityModal.PlusPressesAdd | frontendAdmin/components/QuantityModal.js:22 | n presses of "+" add n |
| QuantityModal.QuantityCounter.constructor | frontendAdmin/components/QuantityModal.js:5 | the counter starts at 1 |
| QuantityModal.QuantityCounter.PressMinus | frontendAdmin/components/QuantityModal.js:18 | one "-" step, staying at least 1 |
| QuantityModal.QuantityCounter.PressPlus | frontendAdmin/components/QuantityModal.js:22 | one "+" step |
| QuantityModal.QuantityCounter.Add | frontendAdmin/components/QuantityModal.js:7-10 | hands on the current quantity, at least 1, then resets to 1 |
| SocketUpdates.AddAppends | frontendAdmin/hooks/useSocket.js:28-30 | an "added" message appends the item at the end |
| SocketUpdates.UpdateMerges | frontendAdmin/hooks/useSocket.js:31-37 | an update keeps length and order, merges into entries with the item's id, and leaves the others |
| SocketUpdates.MergeKeepsId | frontendAdmin/hooks/useSocket.js:35 | merging keeps the id the entry was matched on |
| SocketUpdates.UpdateIdempotent | frontendAdmin/hooks/useSocket.js:31-37 | the same update twice changes nothing more |
| SocketUpdates.RemoveDrops | frontendAdmin/hooks/useSocket.js:38-42 | a removal drops exactly the entries with that id, keeping order |
| SocketUpdates.OtherMessageKeeps | frontendAdmin/hooks/useSocket.js:43-46 | any other message keeps the list |
| OrderLists.Ids | frontendAdmin/screens/GerirPedidos.js:73-75 | the ids of the groups, in order |
| OrderLists.UserIds | frontendAdmin/screens/GerirPedidos.js:77 | the user ids of the groups, in order |
| OrderLists.PendingGroups | frontendAdmin/screens/GerirPedidos.js:70-72 | the pending list holds exactly the non-"pronto" groups, in order, and none of the delivered ones |
| OrderLists.RemoveById | frontendAdmin/screens/GerirPedidos.js:110-112 | removal by id drops exactly that id, keeps order, and changes nothing when the id is absent |
| OrderLists.WindowContents | frontendAdmin/screens/PedidosEntregues.js:83-91 | a window holds exactly the delivered groups created strictly after its start, in order |
| OrderLists.WindowIsDelivered | frontendAdmin/screens/PedidosEntregues.js:74-91 | every group in a window is delivered and later than the start |
| OrderLists.LaterWindowWithin | frontendAdmin/screens/PedidosEntregues.js:79-91 | a later start gives a subsequence of the earlier window |
| AdminManageOrders.EmployeeLabel | frontendAdmin/screens/GerirPedidos.js:159 | "Carregando..." for an id without an entry or with a falsy one; the username text when it is truthy |
| AdminManageOrders.Screen.constructor | frontendAdmin/screens/GerirPedidos.js:28-37 | empty lists and maps, loading, modal hidden |
| AdminManageOrders.Screen.FetchPedidos | frontendAdmin/screens/GerirPedidos.js:65-104 | on success: the pending groups, a scale value 1 per pending id, and the usernames map; on failure: an error modal with the message; `loading` ends false |
| AdminManageOrders.Screen.HandleEstadoChange | frontendAdmin/screens/GerirPedidos.js:106-122 | sends "pronto" for the id; success removes that id and shows the success modal; failure keeps the list and shows the error |
| ClientManageOrders.Screen.constructor | frontendClient/screens/GerirPedidos.js:22 | no groups, nothing sent |
| ClientManageOrders.Screen.FetchPedidos | frontendClient/screens/GerirPedidos.js:29-41 | the non-"pronto" groups on success; unchanged on failure |
| ClientManageOrders.Screen.HandleEstadoChange | frontendClient/screens/GerirPedidos.js:43-54 | sends "pronto"; removes the id only on success |
| DeliveredOrders.EmployeeLabel | frontendAdmin/screens/PedidosEntregues.js:139-141 | "Carregando..." while loading; "Funcionário Indisponível" for a missing or falsy entry; the username text otherwise |
| DeliveredOrders.Screen.constructor | frontendAdmin/screens/PedidosEntregues.js:29-37 | empty windows and map, both loading flags set, modal hidden |
| DeliveredOrders.Screen.FetchPedidos | frontendAdmin/screens/PedidosEntregues.js:69-125 | on success: the three windows over the delivered groups and the usernames map; on failure: the error modal; both loading flags end false |
| DeliveredOrders.Screen.ShowDelivered | frontendAdmin/screens/PedidosEntregues.js:112-115 | stores the three windows and the map, keeping every window delivered |
| DeliveredOrders.FetchedWindowsNest | frontendAdmin/screens/PedidosEntregues.js:78-91 | today's list lies within this week's and this month's |
| DeliveredOrders.LoadedLabels | frontendAdmin/screens/PedidosEntregues.js:93-110 | once loaded, each group shows its user's looked-up name if truthy, else "Funcionário Indisponível" |
| DeliveredOrders.LabelOfAnswer | frontendAdmin/screens/PedidosEntregues.js:139-141 | the label for an entry in terms of the lookup answer it came from |
| Screens.ScaleValues | frontendAdmin/screens/InventarioScreen.js:75-79 | the scale map has exactly the listed ids as keys, each at rest (1) |
| Screens.Usernames | frontendAdmin/screens/GerirPedidos.js:88-91 | the loop builds exactly the map `UsernamesSpec` describes |
| Screens.UsernamesKeys | frontendAdmin/screens/GerirPedidos.js:77-91 | every looked-up id has an entry, and no other id does |
| Screens.UsernamesLastWriteWins | frontendAdmin/screens/GerirPedidos.js:89-91 | an id's entry comes from its last lookup |
| Screens.UsernamesFromLookup | frontendAdmin/screens/GerirPedidos.js:78-91 | with consistent lookups, each id maps to its own lookup's username, or "Funcionário Indisponível" when it threw |
| Screens.UsernameFor | frontendAdmin/screens/PedidosEntregues.js:97-110 | the entry of the i-th user id is its lookup's username |
| ApiStats.FindByUserId | frontendAdmin/api/apiStats.js:86 | `find` by strict equality: none exactly when no record matches, otherwise the first match |
| ApiStats.FindOrDefault | frontendAdmin/api/apiStats.js:78-92 | fails exactly for a not-ok response, with the server's message; the default when nothing matches; the match otherwise |
| ApiStats.ProfitForUser | frontendAdmin/api/apiStats.js:69-96 | fails exactly when not ok; `{totalProfit: 0}` when no record matches; any other result is a matching record |
| ApiStats.OrdersForUser | frontendAdmin/api/apiStats.js:98-126 | fails exactly when not ok; `{totalOrders: 0}` when no record matches; any other result is a matching record |
| ApiStats.FirstMatchWins | frontendAdmin/api/apiStats.js:86 | with several matching records, the first is returned |
| ApiStats.StringIdFindsNoNumericRecord | frontendAdmin/api/apiStats.js:86 | `===` is strict: a string id never matches numeric `userId`s, so the zero default comes back |
| ApiStats.NotOkReportsMessage | frontendAdmin/api/apiStats.js:78-81 | a failed response throws with its message, "" when it has none |
| DoughnutChart.PieData | frontendAdmin/components/DoughnutChart.js:11-17 | exactly the entries with a positive value, as `{key, value}` slices, never more than the input |
| DoughnutChart.PieDataAppend | frontendAdmin/components/DoughnutChart.js:11-17 | the slices of a concatenation are the concatenated slices |
| DoughnutChart.PieDataKeepsAllPositive | frontendAdmin/components/DoughnutChart.js:12 | when every value is positive, there is one slice per entry, in order |
| DoughnutChart.PieDataDropsAllNonPositive | frontendAdmin/components/DoughnutChart.js:12 | when no value is positive, there are no slices |
| DoughnutChart.PieDataCounts | frontendAdmin/components/DoughnutChart.js:11-17 | the slices come from a subsequence of the data |
| DoughnutChart.OneLabelPerSlice | frontendAdmin/components/DoughnutChart.js:28-40 | one label per slice, showing its value |
| StatsScreen.TotalOrdersAppend | frontendAdmin/screens/StatsScreen.js:97-104 | the orders of two runs add up |
| StatsScreen.FoldOthersSums | frontendAdmin/screens/StatsScreen.js:97-104 | over a non-empty list the reduce gives "Outros" with id "0" and the sum of the orders |
| StatsScreen.Entries | frontendAdmin/screens/StatsScreen.js:96 | one entry per item, in order |
| StatsScreen.DoughnutShape | frontendAdmin/screens/StatsScreen.js:96-105 | the first min(n, 5) items, then "Outros" with the remaining sum when n > 5, or the bare seed `{}` when n ≤ 5 |
| StatsScreen.DoughnutOfNull | frontendAdmin/screens/StatsScreen.js:96-97 | null behaves as the empty list and gives only the seed |
| StatsScreen.EntryTotalAppend | frontendAdmin/screens/StatsScreen.js:96-105 | entry totals add up over concatenation |
| StatsScreen.EntryTotalOfEntries | frontendAdmin/screens/StatsScreen.js:96 | the head's entries carry the items' orders |
| StatsScreen.DoughnutConservesOrders | frontendAdmin/screens/StatsScreen.js:96-105 | the doughnut entries carry exactly the total orders of all items |
| StatsScreen.SeedAppendedToShortList | frontendAdmin/screens/StatsScreen.js:96-105 | as written, one item gives the item plus an empty object |
| StatsScreen.IntendedDoughnutData | frontendAdmin/screens/StatsScreen.js:95-105 | the intended data: the first min(n, 5) items, plus "Outros" only when n > 5, every entry an item statistic |
| StatsScreen.IntendedDoughnutDropsOnlyTheSeed | frontendAdmin/screens/StatsScreen.js:96-105 | for n ≤ 5 the written data is the intended data plus the seed; for n > 5 the two agree; both carry the same total |
| StatsScreen.Objects | frontendAdmin/screens/StatsScreen.js:98-102 | each entry as the object `{itemId, itemName, totalOrders}` the chart receives |
| StatsScreen.StatsChartIsEmpty | frontendAdmin/screens/StatsScreen.js:136 | as written, the chart shows no slice at all: no entry has a `value` key |
| StatsScreen.ChartObjects | frontendAdmin/components/DoughnutChart.js:14-15 | the intended objects `{key: itemName, value: totalOrders}` |
| StatsScreen.TotalOrdersPositive | frontendAdmin/screens/StatsScreen.js:101 | a non-empty run of positive counts has a positive sum |
| StatsScreen.IntendedChartShowsEveryEntry | frontendAdmin/screens/StatsScreen.js:136 | with `key`/`value` objects and positive counts, one slice per entry, in order, with that entry's name and count |
| StatsScreen.Top3 | frontendAdmin/screens/StatsScreen.js:108 | the first min(n, 3) users, as a prefix |
| StatsScreen.Top3IgnoresTail | frontendAdmin/screens/StatsScreen.js:108 | users after the third never matter, and taking three twice is taking three |
| StatsScreen.CardOf | frontendAdmin/screens/StatsScreen.js:122-131 | the title is the username when truthy, else "Lugar k+1"; the amount is "N/A" exactly when the profit is falsy, else profit + "€" |
| StatsScreen.RankingOf | frontendAdmin/screens/StatsScreen.js:171-181 | "N/A" exactly when the ranking is empty; otherwise one card per top-three user, in order |
| StatsScreen.ZeroProfitShowsNoProfit | frontendAdmin/screens/StatsScreen.js:128 | a profit of 0 or undefined shows "N/A" |
| StatsScreen.NatToStringInjective | frontendAdmin/screens/StatsScreen.js:177 | different place numbers render differently |
| StatsScreen.FallbackTitlesDistinct | frontendAdmin/screens/StatsScreen.js:174-179 | two users without usernames get different titles |
| StatsScreen.Screen.constructor | frontendAdmin/screens/StatsScreen.js:29-35 | the data all null, the ranking empty, loading |
| StatsScreen.Screen.FetchData | frontendAdmin/screens/StatsScreen.js:39-61 | the fetched data on success, the old data on failure; loading ends false either way |
| Search.Search | frontendAdmin/screens/PedidosScreen.js:133-151 | empty text gives every item; otherwise exactly the items whose folded name contains the folded text, each as many times as the list holds it |
| Search.SearchKeepsOrder | frontendClient/screens/PedidosScreen.js:63-75 | the result is a subsequence of the items |
| Search.SearchIdempotent | frontendInv/screens/InventarioScreen.js:124-142 | searching the result again for the same text changes nothing |
| Search.FoldedEmptyKeepsAll | frontendInv/screens/IngredientesScreen.js:125-137 | a text that folds to "" keeps everything |
| Search.ContainsTransitive | frontendAdmin/screens/InventarioScreen.js:139-145 | containment of substrings is transitive |
| Search.LongerTextNarrows | frontendAdmin/screens/InventarioScreen.js:132-150 | typing more of a word narrows the result to a subsequence |
| AdminInventory.ItemIds | frontendAdmin/screens/InventarioScreen.js:76-78 | the ids of the items, in order |
| AdminInventory.Screen.constructor | frontendAdmin/screens/InventarioScreen.js:29-36 | empty lists, empty search, no scale values, modal hidden |
| AdminInventory.Screen.FetchItems | frontendAdmin/screens/InventarioScreen.js:69-86 | on success: the items, the unfiltered list, and one scale value 1 per item id; on failure: the error modal and nothing else |
| AdminInventory.Screen.FetchAndSearch | frontendAdmin/screens/InventarioScreen.js:65-86 | after a fetch and the effect it triggers: on success the fetched items, `Search` over them with the text already typed, and a scale value 1 per id; on failure the error modal and nothing else |
| AdminInventory.Screen.HandleSearch | frontendAdmin/screens/InventarioScreen.js:132-150 | `searchText` becomes the text and the shown list is `Search` over the items |
| AdminInventory.Screen.HandleDeleteItem | frontendAdmin/screens/InventarioScreen.js:88-102 | the delete is sent at once; success refetches and shows "Sucesso"; failure shows the error |
| InvInventory.Screen.constructor | frontendInv/screens/InventarioScreen.js:31-39 | empty lists, no selection, confirmation hidden, loading |
| InvInventory.Screen.FetchItems | frontendInv/screens/InventarioScreen.js:72-86 | the items on success; the error modal on failure; `loading` ends false on both |
| InvInventory.Screen.FetchAndSearch | frontendInv/screens/InventarioScreen.js:68-86 | after a fetch and the effect it triggers: on success the fetched items and `Search` over them with the text already typed; on failure the error modal; `loading` ends false |
| InvInventory.Screen.HandleSearch | frontendInv/screens/InventarioScreen.js:124-142 | `searchText` becomes the text and the shown list is `Search` over the items |
| InvInventory.Screen.HandleDeleteItem | frontendInv/screens/InventarioScreen.js:88-91 | only records the id and opens the confirmation; nothing is sent |
| InvInventory.Screen.ConfirmDeleteItem | frontendInv/screens/InventarioScreen.js:93-110 | sends the delete for the recorded id; success refetches and shows "Sucesso", failure shows the error; either way the selection is null and the confirmation hidden |
| Ingredients.Screen.constructor | frontendInv/screens/IngredientesScreen.js:31-39 | empty lists, no selection, confirmation hidden, loading |
| Ingredients.Screen.FetchIngredientes | frontendInv/screens/IngredientesScreen.js:71-85 | the ingredients on success; the error modal on failure; `loading` ends false on both |
| Ingredients.Screen.FetchAndSearch | frontendInv/screens/IngredientesScreen.js:67-85 | after a fetch and the effect it triggers: on success the fetched ingredients and `Search` over them with the text already typed; on failure the error modal; `loading` ends false |
| Ingredients.Screen.HandleSearch | frontendInv/screens/IngredientesScreen.js:123-141 | `searchText` becomes the text and the shown list is `Search` over the ingredients |
| Ingredients.Screen.HandleDeleteIngrediente | frontendInv/screens/IngredientesScreen.js:87-90 | only records the id and opens the confirmation |
| Ingredients.Screen.ConfirmDeleteIngrediente | frontendInv/screens/IngredientesScreen.js:92-109 | sends the delete for the recorded id; either way the selection is null and the confirmation hidden afterwards |
| ItemForm.IngredientRow.constructor | frontendInv/screens/CriarItemScreen.js:18 | a row object with the given texts |
| ItemForm.Values | frontendInv/screens/CriarItemScreen.js:67-71 | the contents of the row objects, one per row |
| ItemForm.Updated | frontendInv/screens/CriarItemScreen.js:69 | the named field takes the value and the other field is unchanged |
| ItemForm.RowsOf | frontendInv/screens/EditaItemScreen.js:46-51 | one row per ingredient, with the name copied and the quantity as decimal text |
| ItemForm.LoadedQuantitiesReadBack | frontendInv/screens/EditaItemScreen.js:49 | a loaded quantity's text is digits that read back as the quantity |
| ItemForm.LastEditWins | frontendInv/screens/EditaItemScreen.js:100-104 | editing a field twice keeps the last value; edits of different fields commute |
| ItemForm.LoadRows | frontendInv/screens/EditaItemScreen.js:46-54 | fresh, distinct row objects holding `RowsOf` the ingredients |
| ItemForm.Form.constructor | frontendInv/screens/CriarItemScreen.js:16-21 | empty name and price, exactly one blank row |
| ItemForm.Form.AddIngrediente | frontendInv/screens/CriarItemScreen.js:63-65 | a new blank row at the end; the earlier row objects are kept |
| ItemForm.Form.ChangeIngrediente | frontendInv/screens/CriarItemScreen.js:67-71 | the same row objects afterwards; only one field of one row changed |
| ItemForm.Form.InitialiseFrom | frontendInv/screens/EditaItemScreen.js:39-55 | with an item: its name, its price as text and fresh rows from its ingredients; without one: nothing changes |
| ItemForm.Form.CreateItem | frontendInv/screens/CriarItemScreen.js:45-61 | sends name, price and the current rows; the modal reports the outcome |
| ItemForm.Form.Save | frontendInv/screens/EditaItemScreen.js:74-94 | sends id, name, price and the current rows; success also schedules the way back |
| ItemForm.ChangeSeenThroughEarlierList | frontendInv/screens/EditaItemScreen.js:100-104 | a list captured before the change shows the new value too, because the copy is shallow |

## Left out

- Networking: `fetch`, `AsyncStorage` and `Promise.all`. Each API call becomes a parameter: its result, or the fact that it threw, with its message.
- Socket.IO: the server-side `io.emit` calls and the screens' refetch-on-event subscriptions. `SocketUpdates` models only the list update the `atualizarItens` listener computes.
- The clock: `moment()` and the start of the day, week and month are the `Starts` parameter. `createdAt` is an integer timestamp.
- The Unicode fold (`normalize("NFD")`, removing combining marks, `toLowerCase()`) is a function parameter of the search.
- Floating point:
  - prices are integers;
  - `toFixed(2)` on the profit cards is not modelled;
  - `item.preco.toString()` in the edit form renders an integer;
  - NaN is not a `Js.Value`.
- `Js.GreaterThanZero`: for a string it only accepts decimal digits. JavaScript's `>` coerces other numeric strings ("1.5", " 2"), and the model treats those as not positive.
- Animated values: the press animations are left out, and a scale value at rest is the integer 1.
- Chart rendering: the slice fill colour (`COLORS[index % COLORS.length]`), label positions and styles are not modelled.
- The admin `PedidosScreen` image lookup: it fetches from Unsplash and saves an `imageUri` for items without one. `FetchInventoryItems` receives the list after that step.
- `OrderGroupRoutes.OrderStore.CreateGroup`: a malformed body (no `items` array, non-numeric quantities) throws and gives 400. The model takes well-formed lines only.
- UpdateStatus, DeductItems and NewOrderItems assume two things the route code relies on and the files modelled here do not declare: an `itemId` column on `OrderItem`, and un-aliased `OrderItems` and `Item` associations. `backend/src/app.js:24` registers the items under the alias `items`, and `models/OrderItem.js` has no `itemId` column. Under those declarations alone, POST would not store the item link and PATCH's `include` without `as` would fail. The model follows the route code as if those associations existed.
- ApiStats: a `fetch` that throws (network failure) is not modelled. The `Response` parameter has only the ok and not-ok cases, and the rethrown error's message is not covered.
- Sequelize: validation (the `status` ENUM, `allowNull`, unique names) and database errors are not modelled. The GET / route that lists all groups is a plain `findAll`.
- `AuthRoutes.Login`: `bcrypt.compare` is an oracle parameter, `jwt.sign` is represented by the claims and expiry it receives, and the unused `bcrypt.hash` call is dropped. The 500 catch path is not modelled.
- Signup: `models/User.js` is not part of this model, so defaults and hashing at creation are unknown. Only the copied fields are stated.
- The inventory app's API clients (`deletarItemDoInventario`, `criarNovoItem` with rows) are not part of this model. The requests are recorded as the screen sends them.
- `ItemForm.Form.ChangeIngrediente`: an out-of-range index would throw in JavaScript. The handler is only bound to rendered rows, so the model requires an index in range.
- Navigation, modals' rendering, themes and console logging are not modelled.

## Findings

| source | as written | input that shows it | evidently intended | confidence | as-written member | corrected member |
|---|---|---|---|---|---|---|
| frontendAdmin/screens/StatsScreen.js:96-105 | the remainder is folded with `reduce(..., {})` and the result is always concatenated, so with five items or fewer the seed `{}` is appended as an extra entry | `ordersPerItem = [{itemId: 1, itemName: "Café", totalOrders: 3}]` gives that entry followed by `{}` | add "Outros" only when there are more than five items | not executed | StatsScreen.SeedAppendedToShortList | StatsScreen.IntendedDoughnutData |
| frontendAdmin/screens/StatsScreen.js:136 with frontendAdmin/components/DoughnutChart.js:11-17 | the chart keeps the entries with `item.value > 0` and reads `key`/`value`, but the stats entries only have `itemId`, `itemName` and `totalOrders`, so no slice is ever drawn | any `ordersPerItem`, e.g. the one above: `value` is undefined and `undefined > 0` is false | map the entries to `{key: itemName, value: totalOrders}` before charting | not executed | StatsScreen.StatsChartIsEmpty | StatsScreen.IntendedChartShowsEveryEntry |
