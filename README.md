# Marketplace core in Dafny

This project models the core of a small marketplace with two parts:

- A NestJS backend:
  - the product catalog service (`ProductService`);
  - the order service (`OrdersService`);
  - the request bodies (DTOs) of both services, with their class-validator constraints;
  - the role guard in front of the seller routes.
- Three React pages of the frontend:
  - the cart page;
  - the public product list (add to cart, search, pagination);
  - the two-step sign-up form.

The repositories become in-memory tables:

- `Catalog.ProductTable` is a class with a `rows: map<int, Product>` field and an auto-increment key counter.
- The orders table is a map held by `Orders.OrdersService`. Each order holds the items saved for it.
- The seller and order services share one `ProductTable`, so placing an order updates the stock the catalog sees.

Money is in integer cents and a product rating in integer hundredths. Clocks and generated ids are parameters:

- `now` stands for `createdAt`;
- `newId` stands for `Date.now()`.

Module layout, one file per source unit:

| file | module | source |
|---|---|---|
| `common.dfy` | `Common` | `Option`, `Result` and the service errors |
| `text.dfy` | `Text` | JavaScript's `\s`, `trim`, `toLowerCase`, `includes` |
| `tables.dfy` | `Tables` | `find … ORDER BY createdAt DESC` over a table |
| `product_entity.dfy`, `product_dto.dfy` | `ProductEntity`, `ProductDto` | the product entity, its enums and the product DTOs |
| `catalog.dfy` | `Catalog` | `product.service.ts` |
| `order_entity.dfy`, `order_dto.dfy` | `OrderEntity`, `OrderDto` | the order entities and `create.order.dto.ts` |
| `orders_service.dfy` | `Orders` | `orders.service.ts` |
| `roles_guard.dfy` | `RolesGuard` | `roles.guards.ts` |
| `cart.dfy` | `Cart` | `CartPage.tsx` and the stored `cart` entry |
| `products_list.dfy` | `ProductsList` | `Productslistpage.tsx` |
| `subscribe.dfy` | `Subscribe` | `SubscribePage.tsx` |

## Where the code departs from its evident intent

The model follows the code as written. In these places the code does less than its own comments and checks suggest:

- Stock 0 and `out_of_stock` do not always agree.
  - `updateStock` keeps them in agreement where its comment says the status follows the stock (`Backend/src/product/product.service.ts:331-337`). `update` does the same for a body stock of 0 (`product.service.ts:252-254`).
  - `create` does not apply that rule (`product.service.ts:204-208`), and neither does `changeStatus`, which sets any status whatever the stock (`product.service.ts:295`).
  - `Catalog.CreateCanBreakAgreement` shows a product created with stock 0 and no status. It is `active`.
  - Placing an order does not apply the rule either: the decrement at `Backend/src/orders/orders.service.ts:73-77` changes only the stock. `Orders.OrderCanBreakAgreement` shows an order taking an active product's last units. The product stays `active` with stock 0, so the default listing (`product.service.ts:39-47`) still shows it.
- Placing an order can leave negative stock.
  - `create` checks each line against the stock as it was before the order (`Backend/src/orders/orders.service.ts:37`).
  - The decrement at `orders.service.ts:73-77` has no lower bound.
  - So duplicate lines overdraw (`Orders.DuplicateLinesOverdraw`), and a negative quantity raises stock (`Orders.NegativeQuantityRaisesStock`).

## Model

| member | source | states |
|---|---|---|
| Text.Trim | Frontend/src/pages/SubscribePage.tsx:72-78 | `trim()` yields the empty string exactly when the text is all white space; otherwise the result starts and ends with a non-space character |
| Text.ContainsAt | Frontend/src/pages/Productslistpage.tsx:51-52 | `includes` holds exactly when the searched text occurs at some offset |
| Text.Lower | Frontend/src/pages/Productslistpage.tsx:51-52 | lower-casing keeps the length and maps every character on its own |
| Tables.SelectNewestFirst | Backend/src/orders/orders.service.ts:93-99 | the result lists every row satisfying the condition once and no other row, ordered by `createdAt`, newest first |
| Tables.InsertKeepsSelected | Backend/src/product/product.service.ts:76 | inserting a matching row at its insertion point keeps the selection exact and newest first |
| ProductEntity.ParseStatus | Backend/src/product/product.entity.ts:12-16 | a string is accepted exactly when it is the stored value of one of the three statuses, and maps back to that value |
| ProductEntity.ParseCategory | Backend/src/product/product.entity.ts:18-28 | a string is accepted exactly when it is the stored value of one of the nine categories, and maps back to that value |
| ProductDto.UpdateBoundsMatchCreate | Backend/src/product/product.dto.ts:14-93 | a valid create body is a valid update body; when all required properties are present, update validity and create validity coincide |
| ProductDto.EmptyUpdateIsValid | Backend/src/product/product.dto.ts:54-93 | an update body without any property passes validation |
| Catalog.InvertedPriceRangeMatchesNothing | Backend/src/product/product.dto.ts:104-112 | the filter constraints admit `minPrice > maxPrice`, and such a filter matches no product |
| Catalog.DefaultFilterIsActiveOnly | Backend/src/product/product.service.ts:39-47 | without any filter, a product is listed exactly when it is active |
| Catalog.ProductService.FindAll | Backend/src/product/product.service.ts:27-78 | the listing holds exactly the products passing every condition (category, status or `active`, seller, price bounds, search), once each, newest first |
| Catalog.ProductService.FindOne | Backend/src/product/product.service.ts:106-141 | NotFound for an absent id, with no change; otherwise the product as read before the visit, and the stored view count then goes up by exactly 1 |
| Catalog.ProductService.FindBySeller | Backend/src/product/product.service.ts:146-151 | exactly that seller's products, whatever their status, newest first |
| Catalog.StatusCountsPartition | Backend/src/product/product.service.ts:180-188 | the active, inactive and out-of-stock counts add up to the number of products |
| Catalog.StatsOf | Backend/src/product/product.service.ts:179-196 | the status counts add up to the total, views and reviews are the sums over the products, and the mean rating is 0 for no products |
| Catalog.ProductService.GetSellerStats | Backend/src/product/product.service.ts:174-197 | the statistics are those of exactly the seller's products |
| Catalog.Owned | Backend/src/product/product.service.ts:238-247 | NotFound exactly for an absent id, then Forbidden exactly for another seller's product, otherwise the product |
| Catalog.NewProduct | Backend/src/product/product.service.ts:204-208 | the new row has the body's properties, the caller as seller, and the body's status or `active`; a stock of 0 does not change the status |
| Catalog.ProductService.Create | Backend/src/product/product.service.ts:202-228 | the row is saved under a fresh key and nothing else in the table changes |
| Catalog.ApplyUpdate | Backend/src/product/product.service.ts:249-254 | each property present in the body overwrites the product's and no other property changes; a body stock of 0 forces `out_of_stock`, even over a body status |
| Catalog.UpdateNeverReactivates | Backend/src/product/product.service.ts:249-254 | without a body status, an update leaves a product active only if it already was |
| Catalog.ProductService.Update | Backend/src/product/product.service.ts:233-274 | NotFound, then Forbidden, each leaving the table unchanged; otherwise only that row changes, to the updated product |
| Catalog.ProductService.ChangeStatus | Backend/src/product/product.service.ts:279-303 | NotFound, then Forbidden, each leaving the table unchanged; otherwise only the status of that row changes |
| Catalog.AdjustStock | Backend/src/product/product.service.ts:324-337 | refused exactly when the new stock would be negative; otherwise stock becomes `stock + quantity`, 0 makes the product `out_of_stock`, a positive stock re-activates an `out_of_stock` product, and every other status and property stays |
| Catalog.AdjustStockRestoresAgreement | Backend/src/product/product.service.ts:324-337 | after an accepted adjustment the product is `out_of_stock` exactly when its stock is 0, and the stock is non-negative |
| Catalog.StockRoundTrip | Backend/src/product/product.service.ts:332-337 | draining an active product's stock to 0 makes it `out_of_stock`, and adding stock back makes it `active` again with exactly the added stock |
| Catalog.CreateCanBreakAgreement | Backend/src/product/product.service.ts:204-208 | a product created with stock 0 and no status is `active` with no stock |
| Catalog.ProductService.UpdateStock | Backend/src/product/product.service.ts:308-346 | NotFound, then Forbidden, then the negative-stock refusal, each leaving the table unchanged; otherwise only that row changes, to the adjusted product |
| Catalog.ProductService.Remove | Backend/src/product/product.service.ts:351-373 | NotFound, then Forbidden, each leaving the table unchanged; otherwise exactly that row is deleted and `true` returned |
| OrderDto.NonPositiveLineIsValid | Backend/src/orders/dto/create.order.dto.ts:20-26 | a line with a zero or negative price and quantity passes validation |
| OrderDto.UnreconciledEmptyOrderIsValid | Backend/src/orders/dto/create.order.dto.ts:38-53 | an order with no lines and a total different from subtotal plus shipping passes validation |
| OrderDto.NamelessLineIsInvalid | Backend/src/orders/dto/create.order.dto.ts:16-18 | a line whose product name is absent or empty is rejected |
| Orders.CheckLinesFirstFailure | Backend/src/orders/orders.service.ts:26-42 | the check passes exactly when every line's product exists with at least the requested stock; on failure the error is that of the first failing line (NotFound, or the product's name, stock and the requested quantity) |
| Orders.OrdersService.CheckStock | Backend/src/orders/orders.service.ts:26-42 | the loop returns the error of the first failing line, or none, and changes nothing |
| Orders.Header | Backend/src/orders/orders.service.ts:45-54 | the header is `pending`, owned by the caller, with amounts, address, phone and notes copied unchanged from the body and no items yet |
| Orders.Snapshot | Backend/src/orders/orders.service.ts:60-68 | the saved item carries the line's product id, name, price, quantity, image and seller name under its order id |
| Orders.Snapshots | Backend/src/orders/orders.service.ts:59-70 | one item per line, in order, with consecutive item ids |
| Orders.DecrementedStock | Backend/src/orders/orders.service.ts:59-78 | after the decrements, every product's stock has dropped by exactly the total quantity the lines order of it, and nothing else in any row changes |
| Orders.QtyForUnnamed | Backend/src/orders/orders.service.ts:73-77 | a product no line names is decremented by 0 |
| Orders.QtyForDistinct | Backend/src/orders/orders.service.ts:73-77 | with distinct product ids, a line's product is decremented by exactly that line's quantity |
| Orders.DistinctOrderKeepsStockNonNegative | Backend/src/orders/orders.service.ts:26-42 | with distinct product ids, an order that passes the check leaves every named product with non-negative stock and every other product unchanged |
| Orders.DuplicateLinesOverdraw | Backend/src/orders/orders.service.ts:37 | two lines for one product whose stock covers one line but not both pass the check and leave negative stock |
| Orders.NegativeQuantityRaisesStock | Backend/src/orders/orders.service.ts:37 | a negative quantity passes the check and raises the product's stock |
| Orders.OrderCanBreakAgreement | Backend/src/orders/orders.service.ts:73-77 | an order that takes an active product's last units passes the check and leaves the product active with stock 0, so stock and status disagree |
| Orders.OrdersService.SaveItem | Backend/src/orders/orders.service.ts:60-77 | one step of the second loop: one item appended to the order and one decrement, with the table invariant kept |
| Orders.OrdersService.SaveItems | Backend/src/orders/orders.service.ts:59-78 | the order gains exactly the snapshot items of the lines, in order, and the table becomes the decremented table |
| Orders.OrdersService.Create | Backend/src/orders/orders.service.ts:24-91 | a failed check returns its error with no order, item or stock change; otherwise a new `pending` order holding the line snapshots is saved under a fresh id and the stock drops line by line |
| Orders.OrdersService.FindAllByUser | Backend/src/orders/orders.service.ts:93-99 | exactly the caller's orders, once each, newest first |
| Orders.OrdersService.FindOne | Backend/src/orders/orders.service.ts:101-112 | the order exactly when the id exists and belongs to the caller; another user's order is NotFound like an absent one |
| Orders.OrdersService.UpdateStatus | Backend/src/orders/orders.service.ts:114-123 | NotFound for an unknown id with no change; otherwise only that order's status changes, whoever owns it |
| Orders.Tally | Backend/src/orders/orders.service.ts:142-148 | a status is a key of the counts exactly when some order has it |
| Orders.TallyTotalIsCount | Backend/src/orders/orders.service.ts:142-148 | the per-status counts add up to the number of orders |
| Orders.StatsOf | Backend/src/orders/orders.service.ts:131-155 | order count, sum of amounts, sum of item quantities, and status counts that add up to the order count |
| Orders.OrdersService.GetUserStats | Backend/src/orders/orders.service.ts:125-156 | the statistics are those of exactly the caller's orders |
| RolesGuard.FromJwtPayload | Backend/src/auth/strategies/jwt.strategy.ts:19 | the request user built from a token has its id and e-mail and no role |
| RolesGuard.CanActivate | Backend/src/auth/guards/roles.guards.ts:14-41 | allowed without required roles; Forbidden for a missing user or role; otherwise allowed exactly when the role is required, else Forbidden naming the roles; never `false` |
| RolesGuard.AllowedIff | Backend/src/auth/guards/roles.guards.ts:14-41 | access is granted exactly when no roles are required or the user's role is among them, and the answer is never `false` |
| RolesGuard.JwtUserAlwaysForbidden | Backend/src/auth/guards/roles.guards.ts:28-30 | a token-built user is refused by every route that declares roles |
| RolesGuard.EmptyRoleListForbidsAll | Backend/src/auth/guards/roles.guards.ts:32-38 | an empty role list lets nobody through |
| Cart.WithQuantity | Frontend/src/pages/CartPage.tsx:41-43 | same length and order; exactly the items with that id get the new quantity and nothing else changes |
| Cart.WithQuantityAbsent | Frontend/src/pages/CartPage.tsx:41-43 | with no item of that id, the cart is unchanged |
| Cart.Without | Frontend/src/pages/CartPage.tsx:49 | the result holds exactly the items without that id |
| Cart.WithoutAppend | Frontend/src/pages/CartPage.tsx:49 | removal acts on each part of the cart separately, so the rest keeps its order |
| Cart.WithoutAbsent | Frontend/src/pages/CartPage.tsx:49 | removing an id no item has leaves the cart as it is |
| Cart.SubtotalAppend | Frontend/src/pages/CartPage.tsx:59-61 | the subtotal of two parts is the sum of their subtotals |
| Cart.SubtotalWithQuantity | Frontend/src/pages/CartPage.tsx:38-46 | with distinct ids, changing one item's quantity moves the subtotal by its price times the change |
| Cart.OrderLine | Frontend/src/pages/CartPage.tsx:81-88 | the line carries the item's product id, name, price, quantity and image, and the seller's first and last name joined by a space |
| Cart.OrderLines | Frontend/src/pages/CartPage.tsx:81-88 | one line per cart item, in order |
| Cart.OrderPayload | Frontend/src/pages/CartPage.tsx:80-95 | lines, subtotal, shipping 7.00, total equal to subtotal plus shipping, the placeholder address, the stored phone or the empty string, and empty notes |
| Cart.PayloadValidity | Frontend/src/pages/CartPage.tsx:80-95 | the server accepts the payload exactly when every item has a non-empty name, and the subtotal of the posted lines is the cart's subtotal |
| Cart.CartPage.LoadCart | Frontend/src/pages/CartPage.tsx:31-36 | the stored items are adopted when there are any; otherwise the cart stays |
| Cart.CartPage.UpdateQuantity | Frontend/src/pages/CartPage.tsx:38-46 | a quantity below 1 changes nothing; otherwise the cart gets the new quantity and is stored |
| Cart.CartPage.RemoveItem | Frontend/src/pages/CartPage.tsx:48-52 | the items of that id are dropped and the cart is stored |
| Cart.CartPage.ClearCart | Frontend/src/pages/CartPage.tsx:54-57 | the cart is empty and the stored entry deleted |
| Cart.CartPage.Checkout | Frontend/src/pages/CartPage.tsx:67-126 | an empty cart sends nothing; without a token the user goes to log in; otherwise the payload is posted, the cart is cleared only after a successful response and kept on failure, and loading ends |
| ProductsList.FindIndex | Frontend/src/pages/Productslistpage.tsx:91-93 | the first position of an item for the product, or -1 exactly when there is none |
| ProductsList.NewCartItem | Frontend/src/pages/Productslistpage.tsx:100-109 | the new item copies the product's id, name, description, price, image and seller, with quantity 1 |
| ProductsList.AddedToCart | Frontend/src/pages/Productslistpage.tsx:91-110 | an existing item gets one more unit and nothing else changes; otherwise exactly one new item is appended |
| ProductsList.AddToCartProperties | Frontend/src/pages/Productslistpage.tsx:91-110 | unique product ids stay unique, the cart grows only for a new product, and the subtotal rises by one unit's price |
| ProductsList.SubtotalBump | Frontend/src/pages/Productslistpage.tsx:97 | one more unit of an item adds its price to the subtotal |
| ProductsList.ProductsListPage.AddToCart | Frontend/src/pages/Productslistpage.tsx:86-127 | the stored cart (empty when absent) is replaced by the cart with the product added |
| ProductsList.FilterBySearch | Frontend/src/pages/Productslistpage.tsx:49-53 | exactly the products whose lower-cased name or description contains the lower-cased search |
| ProductsList.FilterBySearchAppend | Frontend/src/pages/Productslistpage.tsx:49-53 | filtering acts on each part separately, so the original order is kept |
| ProductsList.SearchResults | Frontend/src/pages/Productslistpage.tsx:48-57 | an empty search keeps every product; otherwise the matching ones |
| ProductsList.EmptySearchMatchesAll | Frontend/src/pages/Productslistpage.tsx:48-57 | the empty search matches every product, so both branches agree |
| ProductsList.ProductsListPage.SetSearch | Frontend/src/pages/Productslistpage.tsx:46-59 | a new search recomputes the shown products and resets the page to 1 |
| ProductsList.ProductsListPage.ProductsLoaded | Frontend/src/pages/Productslistpage.tsx:46-69 | loaded products are filtered by the current search and the page resets to 1 |
| ProductsList.SliceBound | Frontend/src/pages/Productslistpage.tsx:132-135 | a `slice` bound counts a negative value from the end and is clamped to the list |
| ProductsList.PageIsWindow | Frontend/src/pages/Productslistpage.tsx:130-135 | page p is the window `[(p-1)*size, p*size)` cut to the list |
| ProductsList.TotalPages | Frontend/src/pages/Productslistpage.tsx:136 | `ceil(n / size)`: the smallest page count whose pages hold all n products |
| ProductsList.PagesUpToIsPrefix | Frontend/src/pages/Productslistpage.tsx:130-136 | pages 1 to k together are the first `k*size` products |
| ProductsList.PagesCoverList | Frontend/src/pages/Productslistpage.tsx:130-136 | pages 1 to the page count cover the list exactly once, in order |
| ProductsList.PagesBeyondLastEmpty | Frontend/src/pages/Productslistpage.tsx:130-136 | every page after the last is empty |
| ProductsList.ProductsListPage.Paginate | Frontend/src/pages/Productslistpage.tsx:138-141 | only the current page changes |
| Subscribe.WithInput | Frontend/src/pages/SubscribePage.tsx:50-53 | the event's field takes the value or the checkbox state, and no other field changes |
| Subscribe.ClearError | Frontend/src/pages/SubscribePage.tsx:54-56 | a set error of that field is blanked and no other error changes |
| Subscribe.SubscribePage.HandleChange | Frontend/src/pages/SubscribePage.tsx:45-57 | the form gets the input and only that field's error is cleared |
| Subscribe.SubscribePage.HandleRoleSelect | Frontend/src/pages/SubscribePage.tsx:59-67 | only the role changes and only the role error is cleared |
| Subscribe.EmailPatternImpliesNotBlank | Frontend/src/pages/SubscribePage.tsx:78-82 | an address matching `\S+@\S+\.\S+` is never blank, so "required" and "invalid" exclude each other |
| Subscribe.Step1Errors | Frontend/src/pages/SubscribePage.tsx:69-89 | one message per failed check: a name error exactly when that name is blank, "required" for a blank e-mail and "invalid" only for a non-blank one that does not match, a role error exactly when none is chosen; none at all exactly when step 1 is valid |
| Subscribe.EmailBlankCheckSubsumed | Frontend/src/pages/SubscribePage.tsx:78-82 | step 1 passes exactly when the names are not blank, the e-mail matches and a role is chosen; the e-mail is flagged exactly when it does not match |
| Subscribe.TrimsToEmpty | Frontend/src/pages/SubscribePage.tsx:72 | `!s.trim()` holds exactly when the text is blank |
| Subscribe.SubscribePage.ValidateStep1 | Frontend/src/pages/SubscribePage.tsx:69-89 | the errors become the step-1 errors of the form, and the answer is true exactly when step 1 is valid, that is when there is no error |
| Subscribe.Step2Errors | Frontend/src/pages/SubscribePage.tsx:91-110 | "required" for an empty password, else the length error below 8 characters; a mismatch error exactly when the confirmation differs; a terms error exactly when they are not accepted; no error at all exactly when step 2 is valid |
| Subscribe.SubscribePage.ValidateStep2 | Frontend/src/pages/SubscribePage.tsx:91-110 | the errors become the step-2 errors of the form, and the answer is true exactly when step 2 is valid, that is when there is no error |
| Subscribe.SubscribePage.HandleNext | Frontend/src/pages/SubscribePage.tsx:112-116 | from step 1, the errors become the step-1 errors of the form and the page moves to step 2 exactly when there are none; on another step nothing changes |
| Subscribe.SubscribePage.HandleBack | Frontend/src/pages/SubscribePage.tsx:118-121 | back to step 1 with no errors |
| Subscribe.RequestOf | Frontend/src/pages/SubscribePage.tsx:131-138 | the request carries the form's names, e-mail, password, phone and role string |
| Subscribe.SubscribePage.HandleSubmit | Frontend/src/pages/SubscribePage.tsx:123-168 | when step 2 fails nothing is sent and the errors are exactly the step-2 errors; otherwise the form is sent, a failed call leaves only the submit error with the server's message or the default one, and loading ends |

## Left out

- Controllers, the authentication service, the passport strategies and password hashing are not modelled: they route requests and call code outside this model. The one fact kept is that the JWT strategy builds the request user without a role (`RolesGuard.FromJwtPayload`).
- `Orders.OrdersService.Create`: the final re-read and its NotFound branch are left out. In the in-memory model the order re-read is always present.
- `Orders.OrdersService.Create`: the model treats the whole request as one step. Concurrent checkouts, transactions and a failure after the header is saved are not modelled.
- Database save failures are not modelled: `create`, `update` and `remove` catch them and answer BadRequest.
- `Catalog.ProductService.Remove` succeeds for any owned product and leaves order items whose `productId` names the deleted row.
  - In the source, `order_items.productId` is a foreign key to `products` (`Backend/src/orders/entities/order-item.entity.ts:16-20`), and the schema is synchronised from the entities (`Backend/src/app.module.ts:22`).
  - So deleting a product that any order line references is always refused by the database. `remove` catches that and answers BadRequest (`product.service.ts:367-372`).
  - The model has no foreign keys, so it does not capture this refusal.
- The response projections (`map` to response objects, envelopes, `Number(...)` conversions) are left out. Operations return whole rows.
- `Catalog.MatchesFilter` reads SQL `LIKE '%s%'` as a plain substring test: `%` and `_` in the search and the collation's case handling are not modelled.
- `Catalog.StatsOf` computes `averageRating` as an exact rational, not a floating-point number.
- `Orders.StatsOf`: `totalSpent` is kept as an integer number of cents, not the two-decimal `toFixed(2)` string.
- `Orders.StatsOf`: the statistics are folded over the user's orders newest first. The source does not order them, and the sums and counts do not depend on the order.
- `Orders.Tally` states which statuses are keys and that the counts add up to the order count. It does not name each status's count as a separate property.
- Money and stock are integers. Non-integer stock, which `IsNumber` admits, and fractional cents are not modelled.
- `IsUrl` on product images is not modelled: `images` and `mainImage` are accepted as given.
- The DTO datatypes have no case for two kinds of body the source rejects.
  - The model reads an unknown property, and a property of the wrong JSON type, as an absent value.
  - The global `ValidationPipe` (`Backend/src/main.ts:10-13`) strips unknown properties. A wrong-typed property fails its type decorator and gets 400, even an optional one: `@IsOptional` skips only `null` and `undefined`. So an update body `{"price": "12"}` is refused, yet the model reads it as an empty update.
- The query-string filters read as numbers in the model, but they arrive as strings.
  - The pipe has no implicit conversion, so `minPrice`, `maxPrice` and `sellerId` reach `ProductFilterDto` as strings (`Backend/src/product/product.controller.ts:75`). They then fail `IsNumber`.
  - Over HTTP, any listing that uses them is refused with 400. That includes the inverted price range of `Catalog.InvertedPriceRangeMatchesNothing`, which holds of the DTO and the service alone.
- An explicit `null` property is not modelled. It passes `@IsOptional`, and `Object.assign` in `update` (`product.service.ts:249`) writes it into the row, so `{"mainImage": null}` clears the image.
- `Catalog.ProductService.UpdateStock` takes `quantity` as an integer. The route passes the raw body property without validation (`product.controller.ts:176`), and the model does not cover this.
  - A string `"5"` makes `product.stock + quantity` a string concatenation.
  - A missing quantity gives `NaN`, which passes the `< 0` guard and turns an `out_of_stock` product back to `active`.
- `Catalog.ProductService.ChangeStatus` takes an already-typed status. The route passes the body's string without validation, and such strings are not modelled.
- `Text.Lower` lower-cases ASCII letters only. String lengths count code points, not UTF-16 code units.
- The browser's `localStorage` is a `SavedCart` object whose entry holds the items last written. The model takes the JSON round trip to give back the same items.
- Navigation, `alert`, `setTimeout`, `window.scrollTo`, the button animation and the display of fetch errors are not modelled.
- The product list's loading flag, error message and category refetch are not modelled.
- `ProductsList.ProductsListPage.ProductsLoaded` merges the fetch result and the search effect that follows it into one step.
- The seller dashboard's pagination (`Frontend/src/pages/DashboardPage.tsx:185-191`) is the same arithmetic with page size 6. The pagination functions take the page size as a parameter, so they cover it; the dashboard page itself is not modelled.
- `Subscribe.SubscribePage.HandleSubmit`: what happens after a successful registration is not modelled. That covers writing the token and user to storage and the redirect by role.
