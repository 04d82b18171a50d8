# quickCart order core, modelled in Dafny

quickCart is a grocery-delivery system. Customers place orders. Delivery
partners claim ("accept") them and move them through their statuses. Admins
watch the totals. A socket server carries live status and location updates.
This project models the order rules of the Express backend and a few pure
rules of the React frontend, and proves properties about them.

The modules are:

- `OrderModel` (`order.dfy`): the order document of `backend/models/Order.js` with its defaults, the claim update both accept handlers write, the claim-consistency invariant, and the order total.
- `Events` (`events.dfy`): what the HTTP handlers publish through the socket server.
- `Listing` (`listing.dfy`): filtering, counting, sorting newest-first and skip/limit windows. These stand in for the query, count and sort calls.
- `ServerRoutes` (`server_routes.dfy`): the request logic of `backend/server.js`. This covers bearer-token extraction, the available-orders listing, the accept variant's checks, the creation checks and total loop, and the dashboard and per-partner counts.
- `PartnerRoutes` (`partner_routes.dfy`): the request logic of `backend/routes/partner.js`. This covers the available listing, the accept checks and notifications, and the status route.
- `CustomerRoutes` (`customer_routes.dfy`): the request logic of `backend/routes/customer.js`. This covers the products query and its order, creation validation, the mock-product defaults with their total loop, and the partner notification.
- `AdminRoutes` (`admin_routes.dfy`): the request logic of `backend/routes/admin.js`. This covers the dashboard statistics, the order listing with its page arithmetic, and the partner-details role check.
- `OrderIds` (`order_ids.dfy`): the `ORD-<clock>-<suffix>` identifiers.
- `OrderStore` (`order_store.dfy`): class `OrderStore` holds the orders keyed by `orderId` and the published events. Its methods are the handlers that write orders: the two accept handlers, the status route and the two creation handlers. Each is proved against the route functions above.
- `SingleClaim` (`claims.dfy`): what one request does to an order, and the single-claim theorem over any sequence of requests.
- `SocketHandler` (`socket_handler.dfy`): the socket server's identity fallback and room joins. Class `TrackingHub` holds the `activeOrders` and `partnerLocations` maps and the emit log, and proves the last-writer-wins location cache.
- `CartContext` (`cart.dfy`): the cart transforms and class `Cart`, which holds the cart cell.
- `OrderTracking` (`order_tracking.dfy`): the tracking timeline and the live-update filter.
- `Register` (`register.dfy`): the registration form's checks and redirect.
- `Optional` (`optional.dfy`): the `Option` type.

Absent or non-numeric inputs are modelled explicitly:

- JavaScript's falsy values are `None` or `""`.
- A price or quantity that is missing or not a number is `None`, and a `NaN` total makes the save fail with 500.
- Prices are whole numbers, for example cents.

The accept handlers only ever claim a `placed` order, and no handler sets an
order back to `placed`. So over any sequence of accept and status requests,
starting from any document, at most one accept writes a claim. The claim it
writes is never replaced (`SingleClaim.AtMostOneClaim`, `SingleClaim.ClaimKept`,
`SingleClaim.FirstClaimWins`).

Where the two copies of a handler differ, both are modelled:

- **Accept.** `partner.js` checks the role and the lock owner. `server.js` does neither.
- **Available listing.** `partner.js` lists `placed` and `preparing` orders, and does not look at the claim. `server.js` lists placed, unlocked orders.
- **Creation.** `customer.js` validates every item and substitutes defaults. `server.js` copies the items as they are.

## Model

| member | source | states |
|---|---|---|
| OrderModel.NewOrder | backend/models/Order.js:36-74 | A new order is `placed`. It has no assignee, no partner e-mail, no lock owner, and is unlocked. Only its placement time is set, and it satisfies the claim invariant. |
| OrderModel.Claim | backend/routes/partner.js:80-85 | The claim sets the lock, the lock owner, the assignee and the partner e-mail. It sets status `accepted` and the acceptance time. Everything else, including the payload and the other timestamps, is unchanged. |
| OrderModel.ItemsTotalBounds | backend/server.js:393-398 | With no negative price or quantity, the total is at least each line's own amount, and is not negative. |
| OrderModel.ItemsTotalAppend | backend/server.js:393-398 | The total of two runs of lines is the sum of their totals. |
| ServerRoutes.Split | backend/server.js:25 | `split(' ')` always gives at least one piece, and no piece contains the separator. |
| ServerRoutes.SplitJoin | backend/server.js:25 | Joining the pieces of `split` gives back the string. |
| ServerRoutes.BearerToken | backend/server.js:24-25 | A token is found only in a present header. It is the second space-separated word, and it is non-empty and has no space. |
| ServerRoutes.BearerTokenOfCredentials | backend/server.js:25 | For `<scheme> <token>[ ...]` the token is found, whatever the scheme word is. |
| ServerRoutes.BearerTokenNeedsTwoWords | backend/server.js:25-29 | A header without a space yields no token. |
| ServerRoutes.Authenticate | backend/server.js:23-38 | The answer is 401 exactly when there is no token, and 403 exactly when the token does not verify. Otherwise the user is the id that verification gives. |
| ServerRoutes.MiddlewaresDifferOnlyInMessage | backend/routes/partner.js:10-20 | Given the same header and the same verification result, the middleware of `server.js` and that of the route files answer alike, except for the 403 wording: `Invalid token` against `Invalid or expired token`. The two verify with different secrets (see "Left out"). |
| ServerRoutes.AvailableOrdersSpec | backend/server.js:146-149 | The listing holds exactly the `placed`, unlocked orders, sorted newest placement first. |
| ServerRoutes.ClaimedNotAvailable | backend/server.js:146-149 | A claimed order (claim-consistent, assigned) is never listed. |
| ServerRoutes.AcceptCheck | backend/server.js:169-186 | The checks pass exactly when the order exists, is `placed` and unlocked, and the user exists. A missing order gives 404 `Order not found`. A status other than `placed` gives 400 `Order is no longer available`. A lock gives 400 `Order is already being processed by another partner`. A claimable order with a missing user gives 404 `Partner not found`. The checks run in that order. |
| ServerRoutes.AcceptIgnoresRole | backend/server.js:182-186 | A user of any role passes this variant's checks. |
| ServerRoutes.CreateCheck | backend/server.js:378-384 | The checks pass exactly when there are items and an address with a phone. Otherwise the answer is 400. |
| ServerRoutes.RequestTotal | backend/server.js:393-398 | The total is a number exactly when every item has a numeric price and quantity. |
| ServerRoutes.ToOrderItem | backend/server.js:400-406 | Each order line copies the item's five fields. |
| ServerRoutes.ToOrderItems | backend/server.js:396-407 | There is one line per item, in order. |
| ServerRoutes.RequestTotalSpec | backend/server.js:393-407 | A numeric total equals the sum of price times quantity over the copied lines. |
| ServerRoutes.PriceItems | backend/server.js:393-407 | The loop copies every item in order, and its running total is `RequestTotal`. |
| ServerRoutes.DashboardCounts | backend/server.js:283-288 | Total orders is the collection size. Pending, active and completed are the counts of `placed`, of the three in-progress statuses (`accepted`, `picked_up`, `in_transit`) and of `delivered`, each the length of that filter. Partners and customers are the counts of their roles. The three classes together are at most all orders. |
| ServerRoutes.DashboardClassesCover | backend/server.js:284-286 | Every schema status except `cancelled` falls in exactly one of pending, active and completed. |
| ServerRoutes.RecentOrders | backend/server.js:289 | The result has five orders, or all of them when there are fewer. It is a prefix of the collection sorted newest `placedAt` first, so it is sorted and no order left out is newer than one shown. |
| ServerRoutes.PartnerCounts | backend/server.js:241-249 | Total, active and completed count the orders assigned to the partner: all of them, those in progress, and those delivered. Active and completed are disjoint parts of the total. |
| ServerRoutes.OthersOrdersUncounted | backend/server.js:241-249 | When no order is assigned to the partner, all three counts are zero. |
| PartnerRoutes.AvailableToPartnersSpec | backend/routes/partner.js:30-36 | Exactly the `placed` and `preparing` orders are listed, newest `createdAt` first. |
| PartnerRoutes.AssignedPreparingIsListed | backend/routes/partner.js:30-33 | An assigned order in `preparing` is listed as available again. |
| PartnerRoutes.AcceptCheck | backend/routes/partner.js:52-77 | Pass holds exactly when the user is a partner, the order exists, no other partner holds the lock, it is unassigned, and it is `placed`. 403, 404 and 409 each hold exactly under their own condition, with their messages. An order that passes the lock check but is assigned gets 400 `Order already assigned to a partner`. An unassigned one that is not `placed` gets 400 `Order cannot be accepted in current status`. |
| PartnerRoutes.ClaimedOrderRefused | backend/routes/partner.js:64-73 | On a claimed order another partner gets 409, and the assignee gets 400 "already assigned". |
| PartnerRoutes.AcceptNotifications | backend/routes/partner.js:90-109 | There are three emissions to the customer, admin and `partners` rooms, all about the order. Delivery is estimated at 30 minutes, and the customer's name is their e-mail. |
| PartnerRoutes.StatusCheck | backend/routes/partner.js:135-148 | The check passes exactly for one of the three statuses and a found order. Otherwise the answer is 400 "Invalid status", then 404. A status that passes is never `placed`. |
| PartnerRoutes.StatusRouteOutsideSchema | backend/routes/partner.js:135 | Of the route's three statuses only `delivered` is in the schema's enum. |
| PartnerRoutes.WithStatus | backend/routes/partner.js:150-154 | The update writes the status, and the delivery time for `delivered`. No other field changes, and the claim invariant is kept. |
| CustomerRoutes.BuildProductsQuery | backend/routes/customer.js:31-44 | A category condition is added exactly for a given category other than `All`. A name condition is added exactly for a given search. Featured-only is set exactly for `featured == 'true'`. |
| CustomerRoutes.UnfilteredSelectsAvailable | backend/routes/customer.js:32 | The base query selects exactly the available products. |
| CustomerRoutes.ProductListingMembers | backend/routes/customer.js:46 | The listing holds exactly the selected products. |
| CustomerRoutes.ProductListingOrder | backend/routes/customer.js:46 | Featured products come first, and each group is newest first. |
| CustomerRoutes.ValidateOrder | backend/routes/customer.js:69-86 | The check passes exactly for a non-empty list of items each with a productId, a name, a quantity of at least 1 and a numeric price, plus an address with a phone. Otherwise the answer is 400 "Validation failed". |
| CustomerRoutes.ValidRequestPassesServerChecks | backend/routes/customer.js:70-76 | A validated request also passes `server.js`'s checks, and gets a numeric total there. |
| CustomerRoutes.ServerChecksAreWeaker | backend/routes/customer.js:73 | Some request passes `server.js` but fails this validation. |
| CustomerRoutes.EffectivePrice | backend/routes/customer.js:118 | A zero price becomes exactly 10, and any other price is kept, so the price is never zero. |
| CustomerRoutes.MockItem | backend/routes/customer.js:115-131 | The line keeps the item's id, name, quantity and image, and uses the effective price. |
| CustomerRoutes.MockItems | backend/routes/customer.js:113-132 | There is one line per item, in order. |
| CustomerRoutes.PriceMockItems | backend/routes/customer.js:109-132 | The loop's lines are `MockItems`, and its total is their sum of price times quantity. |
| CustomerRoutes.MockItemsAgreeWithServer | backend/routes/customer.js:113-132 | With no zero price, the lines and total equal those of `server.js`. |
| CustomerRoutes.ZeroPriceCharged | backend/routes/customer.js:118-122 | A zero-priced item is charged 10 per unit, where `server.js` charges 0. |
| CustomerRoutes.NewOrderNotifications | backend/routes/customer.js:155-178 | One `new_order` goes to `partners` exactly when io is attached and the customer has a profile. It carries the order's id, total, items, address and placement time. |
| AdminRoutes.DashboardStats | backend/routes/admin.js:20-26 | Total orders is the collection size. Active and completed count the `placed`/`preparing`/`out_for_delivery` orders and the `delivered` ones, and together are at most all orders. Partners count the partner role, and available partners equal them. Products and low-stock products count the available ones and those with stock under 10, and the second is at most the first. |
| AdminRoutes.ClaimedOrdersUncounted | backend/routes/admin.js:21-22 | Orders in `accepted`, `picked_up` or `in_transit` count as neither active nor completed. |
| AdminRoutes.StatusFilter | backend/routes/admin.js:57-59 | A status condition is added exactly for a given, non-empty status. |
| AdminRoutes.CeilDiv | backend/routes/admin.js:75 | For a positive limit, `Math.ceil(total / limit)` is the least page count whose pages hold the total. |
| AdminRoutes.AdminOrders | backend/routes/admin.js:54-78 | The defaults are page 1 and limit 20. A negative skip fails with 500. A zero limit returns all matches with no page count. A positive limit returns the page's window of the newest-first matches. A negative limit returns a window of its absolute value, with the page count `Math.ceil(total / limit)`. Every page reports the current page and the total. |
| AdminRoutes.Paginate | backend/routes/admin.js:61-76 | A negative skip fails with 500. Otherwise the page reports the current page and the count query's total. A zero limit returns every match with no page count. A positive limit returns `limit` matches after the skip, and a negative one returns `-limit` of them. A non-zero limit reports `Math.ceil(total / limit)`. |
| AdminRoutes.DefaultPage | backend/routes/admin.js:54 | With no parameters the reply is the 20 newest matches on page 1. |
| AdminRoutes.PageOfPosition | backend/routes/admin.js:66-75 | Position i lies on page `i / limit + 1`, which is within the page count. |
| AdminRoutes.EveryOrderOnItsPage | backend/routes/admin.js:61-76 | With a positive limit, the match at position `q * limit + k` (with `k < limit`) is shown on page `q + 1` at offset `k`, and that page is within the page count. |
| AdminRoutes.PositivePage | backend/routes/admin.js:61-76 | With a positive limit, page `q + 1` is the window of the matches that skips `q` whole pages, with the page count `Math.ceil(total / limit)`. |
| AdminRoutes.PartnerDetailsCheck | backend/routes/admin.js:102-105 | The check passes exactly for an existing partner account. Otherwise the answer is 404 "Partner not found". |
| OrderIds.Decimal | backend/server.js:410 | The clock is written in decimal digits only, with one digit exactly below 10. |
| OrderIds.DecimalInjective | backend/server.js:410 | Different clock readings are written differently. |
| OrderIds.OrderIdInjective | backend/server.js:410 | Equal identifiers come from the same clock reading and the same suffix. |
| OrderStore.OrderStore.Lookup | backend/routes/partner.js:57 | `findOne({ orderId })` finds exactly the stored key. |
| OrderStore.OrderStore.AcceptOrder | backend/routes/partner.js:46-129 | A rejected request changes nothing. An accepted one stores `Claim` and publishes the three notifications. If io is attached and the partner has no profile, the answer is 500 after the save. The stored document is `SingleClaim.Step` of the old one for a `PartnerAccept` request. |
| OrderStore.OrderStore.AcceptOrderVariant | backend/server.js:161-215 | A rejected request changes nothing. An accepted one stores `Claim` and answers with the claimed order. The stored document is `SingleClaim.Step` of the old one for a `ServerAccept` request. |
| OrderStore.OrderStore.UpdateStatus | backend/routes/partner.js:132-166 | A rejected request changes nothing. Otherwise the request stores `WithStatus`, whatever the current status. The stored document is `SingleClaim.Step` of the old one for a `StatusUpdate` request. |
| OrderStore.OrderStore.Insert | backend/server.js:426 | The save adds the document under its key. |
| OrderStore.OrderStore.CreateOrder | backend/server.js:360-449 | The answers are 400, 404 and 500 (a NaN total or a duplicate id). Otherwise the answer is 201 with a new `placed` order whose total is the sum of its lines. |
| OrderStore.OrderStore.CreateCustomerOrder | backend/routes/customer.js:69-195 | The answers are 400, 404 and 500 (a duplicate id). Otherwise the answer is 201 with a new `placed` order over the mock lines, plus the partner notification. |
| SingleClaim.ClaimNeedsPlaced | backend/routes/partner.js:71-77 | Both accept handlers claim only a `placed` order, and `partner.js` only an unassigned one. |
| SingleClaim.Step | backend/routes/partner.js:46-166 | One request keeps the payload. A claim sets the assignee and the lock owner. On a non-`placed` order the claim fields stay and the status stays non-`placed`. The claim invariant is kept. |
| SingleClaim.NeverBackToPlaced | backend/routes/partner.js:135-154 | Once not `placed`, an order never is again, and no later request claims it. |
| SingleClaim.AtMostOneClaim | backend/routes/partner.js:64-87 | In any sequence of requests at most one writes a claim. |
| SingleClaim.ClaimKept | backend/routes/partner.js:64-77 | After a claim, the assignee, the lock owner, the partner e-mail and the timestamps never change. |
| SingleClaim.RunKeepsClaimConsistent | backend/routes/partner.js:80-85 | Any sequence of requests keeps the claim invariant. |
| SingleClaim.FirstClaimWins | backend/routes/partner.js:64-73 | The first claim's partner stays assigned, and every later accept fails: 409 for others and 400 for the winner on `partner.js`. |
| SocketHandler.Identify | backend/socket/socketHandler.js:9-30 | A missing, empty or unverifiable token gives `demo-user` as a customer. Otherwise the identity is the token's payload. |
| SocketHandler.InitialRooms | backend/socket/socketHandler.js:36-46 | A socket joins its role's room. A customer also joins `customer_<id>` and a partner joins `partner_<id>`. Any other role joins only its own room, no role joins nothing, and nothing else is ever joined. |
| SocketHandler.AnonymousSocketsShareRoom | backend/socket/socketHandler.js:18-28 | All sockets without a valid token share `customer_demo-user`. |
| SocketHandler.PartnersRoomOnlyForThatRole | backend/socket/socketHandler.js:36-46 | A partner's socket never joins `partners`, the room the HTTP handlers publish partner events to. |
| SocketHandler.SampleStatus | backend/socket/socketHandler.js:104 | A given non-empty status is kept. A missing or empty one becomes exactly `in_transit`. |
| SocketHandler.Record | backend/socket/socketHandler.js:109 | The sample replaces its order's entry, and every other order's entry is unchanged. |
| SocketHandler.LatestSampleWins | backend/socket/socketHandler.js:97-109 | After any sequence of updates, each order's cached sample is the last one reported for it. |
| SocketHandler.TrackingHub.Connect | backend/socket/socketHandler.js:32-46 | The socket gets `Identify`'s identity and `InitialRooms`' rooms. No other socket's rooms change. |
| SocketHandler.TrackingHub.JoinOrderTracking | backend/socket/socketHandler.js:49-58 | The socket joins `order_<id>` and keeps its other rooms. It is sent the cached sample exactly when one exists. |
| SocketHandler.TrackingHub.OrderStatusUpdate | backend/socket/socketHandler.js:61-94 | The order's `activeOrders` entry is replaced. Emits go to the order room, to the sender's own customer room, and to the admins. |
| SocketHandler.TrackingHub.PartnerLocationUpdate | backend/socket/socketHandler.js:97-116 | The sample is cached by `Record`, then emitted to the order room and to the sender's customer room. Every socket then in the order room is a recipient of the first emit, and no memberships change. |
| SocketHandler.TrackingHub.NewOrderRelay | backend/socket/socketHandler.js:119-125 | The data is relayed to the partners and the admins, and nothing is stored. |
| SocketHandler.TrackingHub.OrderAcceptedRelay | backend/socket/socketHandler.js:128-147 | The named customer and the admins are told, the partners learn the order is unavailable, and nothing is stored. |
| SocketHandler.TrackerReceivesLocation | backend/socket/socketHandler.js:49-58 | Over any series of hub states, each keeping the memberships of the one before (as every hub operation ensures), a socket in the order's room at the first state receives a location update sent at the last. |
| CartContext.AddToCart | frontend/src/contexts/CartContext.jsx:16-28 | A new id is appended with quantity 1. For an existing id only its quantity rises by 1, and the length is unchanged. |
| CartContext.RemoveFromCart | frontend/src/contexts/CartContext.jsx:30-32 | The id is gone, and the items kept are exactly the others. A cart without the id is unchanged. A one-item cart keeps its item exactly when the id differs. |
| CartContext.RemoveKeepsOrder | frontend/src/contexts/CartContext.jsx:30-32 | Removing from a concatenation removes from each part in turn. With the one-item case, the result is the items without the id, in their original order. |
| CartContext.UpdateQuantity | frontend/src/contexts/CartContext.jsx:34-44 | A quantity of 0 or less is the same as remove. Otherwise only the matching item's quantity is set, and the length is unchanged. |
| CartContext.ClearCart | frontend/src/contexts/CartContext.jsx:46-48 | The cart is empty. |
| CartContext.AddKeepsWellFormed | frontend/src/contexts/CartContext.jsx:16-28 | Adding keeps ids unique and quantities at least 1. |
| CartContext.RemoveKeepsWellFormed | frontend/src/contexts/CartContext.jsx:30-32 | Removing keeps ids unique and quantities at least 1. |
| CartContext.UpdateKeepsWellFormed | frontend/src/contexts/CartContext.jsx:34-44 | Updating keeps ids unique and quantities at least 1. |
| CartContext.AddThenRemove | frontend/src/contexts/CartContext.jsx:16-32 | Removing a product just added gives the same cart as removing it before adding. |
| CartContext.Cart.Add | frontend/src/contexts/CartContext.jsx:16-28 | The cell becomes `AddToCart` of its old value, and stays well formed. |
| CartContext.Cart.Remove | frontend/src/contexts/CartContext.jsx:30-32 | The cell becomes `RemoveFromCart` of its old value, and stays well formed. |
| CartContext.Cart.Update | frontend/src/contexts/CartContext.jsx:34-44 | The cell becomes `UpdateQuantity` of its old value, and stays well formed. |
| CartContext.Cart.Clear | frontend/src/contexts/CartContext.jsx:46-48 | The cell becomes empty. |
| OrderTracking.Timeline | frontend/src/pages/OrderTracking.jsx:84-130 | Five steps, with ids 1 to 5, for placed, accepted, picked_up, in_transit and delivered. |
| OrderTracking.Position | frontend/src/pages/OrderTracking.jsx:84-130 | A status has a position exactly when it is one of the five. |
| OrderTracking.StepMeaning | frontend/src/pages/OrderTracking.jsx:91-128 | Step k is completed exactly when the status is at position k or later, and current exactly when it is step k's status. |
| OrderTracking.CompletedPrefix | frontend/src/pages/OrderTracking.jsx:84-130 | The completed steps form a prefix. |
| OrderTracking.OneCurrentStep | frontend/src/pages/OrderTracking.jsx:84-130 | For a status of the list, exactly one step is current. It is completed, and so are exactly the steps up to it. |
| OrderTracking.OutsideStatusShowsNothing | frontend/src/pages/OrderTracking.jsx:84-130 | For any other status, no step is completed or current. |
| OrderTracking.ApplyStatusMessage | frontend/src/pages/OrderTracking.jsx:56-57 | An update is applied exactly when it is about the page's order. |
| OrderTracking.OtherOrdersIgnored | frontend/src/pages/OrderTracking.jsx:56-57 | Any number of updates about other orders leave the page unchanged. |
| Register.Validate | frontend/src/pages/Register.jsx:31-41 | A mismatch gives "Passwords do not match". Otherwise a password under 6 gives the length message. The form passes exactly when neither applies. |
| Register.HomeFor | frontend/src/pages/Register.jsx:51-57 | Customers go to `/customer/products`, partners to `/partner/orders`, and anyone else to `/admin/dashboard`. |
| Register.Submit | frontend/src/pages/Register.jsx:25-63 | A local error is shown without registering. A successful registration redirects home. A failed one shows `result.error`. |
| Register.InvalidFormNeverRegisters | frontend/src/pages/Register.jsx:31-43 | The outcome of an invalid form does not depend on the server. |
| Register.MismatchReportedFirst | frontend/src/pages/Register.jsx:31-41 | A mismatch is reported even when the password is also short. |
| Register.RedirectsAreHomes | frontend/src/pages/Register.jsx:48-57 | Every redirect follows a successful registration and goes to one of the three home pages. |

## Left out

- Concurrency. Both accept handlers read and then save, so two requests handled at the same time can both pass the checks. Single claim is proved only for requests handled one after another.
- Mongoose behaviour. The status enum's rejection on save, the `strict` and `strictQuery` handling of fields outside the schema, and `populate` are not modelled. The route's own checks are.
- The partner status route looks its order up by `_id` and `deliveryPartner: 'demo-partner-id'`. That field is not in the order schema, so whether the condition filters anything depends on Mongoose's `strictQuery` setting. The model looks the order up by its key alone.
- Persistence. The connection, indexes, the sort and count mechanics and the seed script are replaced by the in-memory map, `Filter`, `Count` and `SortDesc`. Ties between equal sort keys may come out in any order.
- The `deliveryPartner: { $exists: false }` condition of the `partner.js` available listing names a field outside the schema, so every order meets it. The model drops it.
- The order document leaves out the schema's `trackingData` (current location, estimated delivery, delivery notes) and the `updatedAt` timestamp that `timestamps: true` adds. No modelled handler reads them, and writing `updatedAt` on save is Mongoose's doing.
- The two JWT middlewares verify with different secrets: `server.js` uses `JWT_SECRET` with no fallback, while `routes/partner.js` and `routes/customer.js` fall back to a built-in default. With the variable unset, the same token can fail in one and pass in the other. The model takes the verification result as a parameter of each middleware, so it does not capture this difference.
- JWT signing and verification, and bcrypt, are not modelled. A verification result is a parameter. `User.findById` results are parameters too.
- Socket.io transport is not modelled. Emits are appended to a log, and delivery and disconnect bookkeeping are left to the library. `Recipients` only says who an emit addresses.
- `start_delivery_simulation` is not modelled. It is driven by a timer.
- Floating point is not modelled. Latitude and longitude are carried but never computed on. Prices are whole numbers. The cart total with its `parseFloat` and `toFixed`, and the partner completion rate, are out of scope.
- `Date.now()`, `new Date()` and `Math.random()` are parameters. One reading of the clock serves every `new Date()` of a handler.
- The HTTP replies are not projected. The order reply carries the whole document rather than the few fields each handler copies into its JSON.
- Query strings are modelled as numbers. `page` and `limit` that are not numeric strings (`NaN`) are not modelled, and a negative limit returns at most its absolute value, as the database does.
- The product name condition is a case-insensitive regular expression. It is a parameter `nameMatches` and is not modelled.
- JSON values are simplified. `null`, numeric strings and non-integer quantities are not told apart from missing or integer values.
- String lengths are counted in characters, not UTF-16 units.
- A socket token whose payload has no role leaves the role undefined. The model joins no role room for it; the original joins a room named by `undefined`.
- The timeline's `time` labels are not modelled. They are formatted dates.
- The registration call and the navigation are not modelled. The call is a parameter; the navigation is the returned path.
- The UI pages, HTTP clients, browser storage and the demo stub routes are not modelled.
- The dashboard's `activePartners` list and the other admin and customer routes not named above (products CRUD, single product, order history, health checks) are not part of this model.
