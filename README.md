# Order lifecycle and Payrexx client of a shop backend, in Dafny

This project models the order and payment core of an Express/Mongoose shop backend. It covers three parts.

- **The order handlers.** The handlers in `controllers/orderController.js` act on two collections: orders by id, and each user's `cartData` by user id. They are:
  - placing an order by cash on delivery, by Stripe or by Twint;
  - confirming a Stripe or Twint payment;
  - listing all orders for the admin panel;
  - listing a user's own orders;
  - changing an order's status.
- **The order router.** `routes/orderRoute.js` decides which guard (`adminAuth`, `authUser` or none) stands in front of each handler. It also defines the Payrexx webhook inline. The webhook marks the referenced order paid and empties its owner's cart.
- **The Payrexx gateway client.** `utils/payrexx.js` does the following:
  - builds the gateway request data from an allow-list of input keys;
  - serialises it as a key-sorted RFC 1738 query string (the `qs` library);
  - signs that string with Base64 (section 4 of RFC 4648) of HMAC-SHA256 (RFC 2104) under the API secret;
  - posts exactly that string with the signature in the `ApiSignature` header;
  - verifies webhook signatures by recomputing them;
  - turns every failure of a call into one fixed message.

The files are:

- `js_values.dfy`: JavaScript values.
  - An object is the sequence of its own properties in property order, read through the map `Props`.
  - `Put` is property assignment.
  - `Truthy` is JavaScript truthiness.
- `qs.dfy`: the part of `qs.stringify` the client relies on. It sorts the keys, skips `undefined` and joins with `&`. How one key and its value are escaped stays a parameter.
- `payrexx.dfy`: the gateway client.
  - HMAC-SHA256, Base64 and the per-key `qs` encoder are function-valued fields of `Library`.
  - The network is a function from request to outcome.
- `store.dfy`: the two collections, as the class `Database` whose methods are the Mongoose calls the handlers make.
- `order_controller.dfy`: the order handlers as methods on a `Database`, plus the Stripe line items and return pages.
- `order_route.dfy`: the route table and the webhook.
  - `Webhook` is the webhook's effect as a function.
  - `HandleWebhook` is the handler itself, step by step, proved equal to `Webhook`.

Every order handler that writes (`PlaceOrder`, `PlaceOrderStripe`, `VerifyStripe`, `PlaceOrderTwint`, `VerifyTwint`, `UpdateStatus`) ensures `Store.Evolves`. For the webhook, the lemma `OrderRoute.WebhookEvolves` proves the same about `Webhook`, and `HandleWebhook` is proved equal to `Webhook`. `Store.Evolves` means that no write changes an existing order's owner, items, address, amount, payment method or date, and none turns a paid order back into an unpaid one. The two list handlers change nothing.

## Model

| member | source | states |
|---|---|---|
| `JsValues.Put` | utils/payrexx.js:43 | Assigning `o[k] = v` gives exactly the old properties with `k` set to `v`. For a key that is not an array index, as every `fields[...]` key is, a new key is appended at the end. An object without repeated names keeps none. |
| `JsValues.Keys` | utils/payrexx.js:41 | `Object.keys` lists the property names in property order, one per property. |
| `JsValues.SamePropertiesSameEntries` | utils/payrexx.js:22-46 | Two objects with the same properties hold the same entries; they can differ only in property order. |
| `Qs.SortByKey` | utils/payrexx.js:51-54 | The sort before serialisation yields a key-sorted permutation of the properties. |
| `Qs.InsertByKey` | utils/payrexx.js:53 | Inserting one property into a key-sorted list keeps it sorted and adds exactly that property. |
| `Qs.SortedUnique` | utils/payrexx.js:51-54 | Two key-sorted arrangements of the same properties, without a repeated name, are equal. |
| `Qs.StringifyCanonical` | utils/payrexx.js:51-54 | The serialised query string depends only on which properties the data has, not on the order they were added in. |
| `Payrexx.NewClient` | utils/payrexx.js:6-10 | The client keeps the instance and the secret it was given. |
| `Payrexx.EnvironmentHasNoEffect` | utils/payrexx.js:6-10 | The `environment` argument does not change the client, so it changes no request. |
| `Payrexx.Normalize` | utils/payrexx.js:70-76 | A call succeeds with the response body exactly on a 2xx response. Any other status, or no response, yields the fixed failure message. |
| `Payrexx.SignatureDeterministic` | utils/payrexx.js:13-16 | The signature depends only on the secret and the signed string. |
| `Payrexx.VerifyAfterSign` | utils/payrexx.js:104-107 | A body's own signature is accepted; every other string is rejected. |
| `Payrexx.FieldKeyNotFixed` | utils/payrexx.js:43 | A `fields[name]` key never collides with a fixed key of the request data. |
| `Payrexx.FieldKeyInjective` | utils/payrexx.js:43 | Different custom fields get different keys. |
| `Payrexx.Literal` | utils/payrexx.js:22-28 | The literal holds `instance` from the client and the five copied keys with the input's values, whether or not they are set. |
| `Payrexx.TruthySpreads` | utils/payrexx.js:30-33 | `sku`, `referenceId`, `purpose` and `psp` are added with the input's value exactly when that value is truthy. |
| `Payrexx.DefinedSpreads` | utils/payrexx.js:34-36 | `preAuthorization`, `reservation` and `vatRate` are added exactly when not `undefined`, so `false` and `0` are included. |
| `Payrexx.Spread` | utils/payrexx.js:30-36 | A conditional spread adds its key with the input's value when its condition holds, and changes nothing otherwise. |
| `Payrexx.GatewayBase` | utils/payrexx.js:22-37 | The object literal holds exactly the forwarded fixed keys, each with its value, and no repeated name. |
| `Payrexx.FixedMapAll` | utils/payrexx.js:22-37 | A key is in the literal exactly when it is forwarded. Its value is the client's instance for `instance` and the input's value otherwise. |
| `Payrexx.FieldMapHas` | utils/payrexx.js:41-45 | After the loop, the key of field `name` is present exactly when `name` was visited and its value is truthy. It then carries that value. |
| `Payrexx.FieldMapOnlyFields` | utils/payrexx.js:40-46 | Every key the loop adds is the `fields[name]` key of some custom field. |
| `Payrexx.AddFields` | utils/payrexx.js:40-46 | The loop over `Object.keys(fields)` adds one `fields[name]` key per truthy field to the literal, and nothing else. |
| `Payrexx.GatewayData` | utils/payrexx.js:22-46 | The request data holds `instance` from the client, the copied keys, the optional keys under their conditions and each truthy custom field. No other input key reaches it. |
| `Payrexx.SignedStringDetermined` | utils/payrexx.js:51-54 | Any two request data built from one input serialise to the same signed string. |
| `Payrexx.CreateGateway` | utils/payrexx.js:19-77 | `createGateway` posts to the gateway URL exactly the query string of the request data. It sends `ApiSignature` = the signature of that body and the form content type, so `verifyWebhookSignature` accepts the body it posts together with the header it sends. Any failure becomes 'Failed to create Payrexx gateway'. |
| `Payrexx.GetGateway` | utils/payrexx.js:80-101 | `getGateway` GETs the gateway by id with a payload of `instance` alone and signs that payload's query string, so `verifyWebhookSignature` accepts that query string with the header it sends. Any failure becomes 'Failed to retrieve Payrexx gateway'. |
| `Store.Patched` | controllers/orderController.js:108 | An update sets each field it names to the value it names, and overwrites no other field. Owner, items, address, amount, method and date never change. |
| `Store.PatchedIdempotent` | controllers/orderController.js:108 | Applying the same update twice is applying it once. |
| `Store.UpdatedOrders` | controllers/orderController.js:219 | `findByIdAndUpdate` stores the updated document under the named id. It touches no other order, and does nothing when no order has the id. |
| `Store.ClearedCarts` | controllers/orderController.js:32 | Emptying a cart sets that user's cart to `{}`, leaves every other cart, and does nothing for an unknown user. |
| `Store.ClearedCartsIdempotent` | controllers/orderController.js:32 | Emptying a cart twice is emptying it once. |
| `Store.EvolvesTransitive` | controllers/orderController.js:108-112 | A chain of two allowed changes to the orders is an allowed change, provided every order id in both end states is also in the middle one. Deleting an id and saving it again breaks the chain. |
| `Store.UpdateEvolves` | controllers/orderController.js:108 | An update that does not unset `payment` is an allowed change: paid orders stay paid. |
| `Store.Database.constructor` | controllers/orderController.js:1-2 | The store starts with the given orders and carts. |
| `Store.Database.Save` | controllers/orderController.js:29-30 | `save` inserts the order under a free id, and fails without change on a taken one. |
| `Store.Database.UpdateOrder` | controllers/orderController.js:108 | `findByIdAndUpdate` on an order leaves the carts alone. |
| `Store.Database.DeleteOrder` | controllers/orderController.js:112 | `findByIdAndDelete` removes exactly that order. |
| `Store.Database.FindOrder` | routes/orderRoute.js:40 | `findById` returns the order exactly when it exists. |
| `Store.Database.FindOrders` | controllers/orderController.js:188 | `find` returns exactly the orders the filter selects, as stored. |
| `Store.Database.ClearCart` | controllers/orderController.js:32 | Emptying a cart leaves the orders alone. |
| `OrderController.NewOrder` | controllers/orderController.js:19-27 | The saved order is unpaid, carries the chosen method, and has the caller's user, items, address and amount unchanged. |
| `OrderController.SaveEvolves` | controllers/orderController.js:29-30 | Saving under a free id is an allowed change of the orders. |
| `OrderController.DeleteEvolves` | controllers/orderController.js:112 | Deleting an order is an allowed change of the orders. |
| `OrderController.PlaceOrder` | controllers/orderController.js:13-42 | A COD order is stored unpaid under the new id, then the user's cart is emptied and the reply is 'Order Placed'. A taken id gives `success:false` with no change. |
| `OrderController.ItemLines` | controllers/orderController.js:64-73 | One line per item, in order, priced at `price * 100` with the item's quantity and name. |
| `OrderController.LineItems` | controllers/orderController.js:64-84 | The checkout lines are the item lines followed by exactly one 'Delivery Charges' line of 1000 and quantity 1. The length is `items.length + 1`. |
| `OrderController.ChargedAppend` | controllers/orderController.js:75-84 | The amount charged for two lists of lines is the sum of their amounts. |
| `OrderController.ItemLinesCharged` | controllers/orderController.js:64-73 | The item lines charge a hundred times the items' value. |
| `OrderController.CheckoutTotal` | controllers/orderController.js:64-84 | A checkout charges `100 * (subtotal + 10)` in the smallest currency unit. |
| `OrderController.VerifyUrlsDifferOnlyInFlag` | controllers/orderController.js:87-88 | The success and cancel pages differ, and share the same prefix and the same `&orderId=<id>` suffix around the flag. |
| `OrderController.VerifyUrlInjective` | controllers/orderController.js:87-88 | For one origin and flag, the return page determines the order id. |
| `OrderController.PlaceOrderStripe` | controllers/orderController.js:45-99 | The unpaid Stripe order is saved before the session is requested. The session request carries both return pages and the line items. If Stripe throws, the order stays and the reply is `success:false`. Carts are untouched. |
| `OrderController.VerifyStripe` | controllers/orderController.js:102-121 | A flag exactly `"true"` marks the order paid and empties the caller's cart. Any other flag deletes the order and leaves the carts. |
| `OrderController.PlaceOrderTwint` | controllers/orderController.js:124-159 | The unpaid Twint order is saved and the cart kept. The reply is a pending payment for the new id: `amount * 100` cents, 'CHF', its QR link and return page. |
| `OrderController.VerifyTwint` | controllers/orderController.js:162-181 | A status exactly `"success"` marks the order paid and empties the cart. Anything else changes nothing, deletes nothing, and answers 'Twint Payment Failed'. |
| `OrderController.AllOrders` | controllers/orderController.js:184-196 | The admin list is every order. |
| `OrderController.UserOrders` | controllers/orderController.js:199-211 | The user's list holds exactly the orders whose owner is the user, as stored. |
| `OrderController.UpdateStatus` | controllers/orderController.js:214-226 | Only the named order's `status` changes: no other field, no other order, no cart. The reply is 'Status Updated' even for an unknown id. |
| `OrderRoute.Lookup` | routes/orderRoute.js:9-22 | A path reaches the first route registered for it, or none when no route has it. |
| `OrderRoute.GuardsByFeature` | routes/orderRoute.js:9-25 | Admin features sit behind `adminAuth`, the webhook behind nothing, and every other handler behind `authUser`. |
| `OrderRoute.EachHandlerRoutedOnce` | routes/orderRoute.js:9-25 | Every handler has exactly one route. |
| `OrderRoute.PathsDistinct` | routes/orderRoute.js:9-25 | No two routes share a path. |
| `OrderRoute.OnlyWebhookUnguarded` | routes/orderRoute.js:25 | The Payrexx webhook is the only route without a guard. |
| `OrderRoute.WebhookIgnoresUnconfirmed` | routes/orderRoute.js:28-47 | Without a transaction whose status is exactly 'confirmed' and whose `referenceId` is truthy, nothing changes and the reply is 200 'OK'. |
| `OrderRoute.WebhookPaysReferencedOrder` | routes/orderRoute.js:34-43 | A confirmed transaction sets `payment` on the referenced order only. It also sets `payrexxTransactionId` to `transaction.id`, unless that is `undefined`. It empties the cart of that order's owner. Without such an order nothing changes. |
| `OrderRoute.WebhookIdempotent` | routes/orderRoute.js:34-43 | Redelivering the same body leaves the orders and carts as the first delivery left them. |
| `OrderRoute.WebhookIgnoresHeaders` | routes/orderRoute.js:25-30 | No header, and so no signature, affects the outcome. |
| `OrderRoute.WebhookEvolves` | routes/orderRoute.js:34-37 | The webhook changes orders only in allowed ways. |
| `OrderRoute.WebhookAsShipped` | routes/orderRoute.js:34 | Without the model imports, a confirmed delivery with a truthy `referenceId` answers 500 'Error' and writes nothing. |
| `OrderRoute.WebhookAsShippedExample` | routes/orderRoute.js:30-50 | On one concrete confirmed delivery, the shipped router answers 500 and leaves the order unpaid, while the router with the imports pays it. |
| `OrderRoute.HandleWebhook` | routes/orderRoute.js:25-52 | Running the handler step by step leaves exactly the state and reply that `Webhook` describes. The steps are: update the order, read it back, empty its owner's cart. |

## Left out

- The schemas `models/orderModel.js` and `models/userModel.js` are not part of this model. Mongoose validation and casting are not modelled: any string is a valid id, and `save` fails only on a taken id. A truthy non-string `referenceId` in the webhook is modelled as a failed cast (500).
- The text of the duplicate-key error is a fixed stand-in.
- Database and network errors are not modelled. The catch branches of `verifyStripe`, `verifyTwint`, `allOrders`, `userOrders` and `updateStatus` therefore never run in the model.
- `Date.now()`, the `Math.random` short code, `process.env.FRONTEND_URL` and the request's `origin` header are parameters. The `STRIPE_SECRET_KEY` and the Stripe SDK are left out; session creation is a function of the request.
- Request fields are typed. Items keep only `name`, `price` and `quantity`, and numbers are integers. JavaScript floating point in `price * 100` and `amount * 100` is not modelled.
- `updateStatus` with an `undefined` status is not modelled; the status is a string.
- The orders a `find` returns are a map from id to order. The array order of the reply is not modelled.
- HMAC-SHA256, Base64 and the RFC 1738 escaping of one key and its value are uninterpreted functions (`Payrexx.Library`).
- The key order: `localeCompare` depends on the locale, and is replaced by lexicographic order of character codes.
- How axios serialises `params` for the GET of `getGateway` is not modelled. The request carries the payload itself.
- `Payrexx.GatewayData`: a `fields` value that is a non-empty string is truthy, and `Object.keys` gives its indices. The model treats any non-object `fields` as having no keys, so it says nothing about `fields[0]`-style keys from a string.
- The content of error responses, and what the client logs on failure, are left out.
- The behaviour of the `adminAuth` and `authUser` middleware is not modelled, because `middleware/adminAuth.js` and `middleware/auth.js` are not part of this model. Only the choice of guard per route is.
- Console logging and the live-API diagnostic scripts `test-payrexx.js` and `test-payrexx-diagnostics.js` are left out: they perform network calls and print.
- `Store.EvolvesTransitive`: fresh ids, which Mongoose generates as ObjectIds, are not modelled. A new order's id is a parameter, so the model allows a deleted id to be reused. `verifyStripe` with a failed flag followed by `placeOrder` under the same id is then not an allowed change as a whole, though each step is one. The lemma therefore requires that the ids of both end states survive the middle state.
- Handlers are atomic. Each handler is one step on the store. In the source, other requests can interleave at the `await`s between its store calls: controllers/orderController.js:30/:32, :108/:109 and :170/:171, and routes/orderRoute.js:34/:40/:42. So the model does not cover, for example, a `verifyStripe` delete that lands between the webhook's update and its read-back. In that case the source skips clearing the cart.
- `OrderRoute.PaidPatch`: an update drops keys whose value is `undefined`, as Mongoose 6 and later do. So a confirmed transaction without an `id` keeps the stored `payrexxTransactionId`. The Mongoose version is not part of this model. Earlier versions could store the missing id differently.
- `OrderRoute.Lookup`: paths are compared exactly. By default, Express matches paths case-insensitively and ignores a trailing slash, so `/List` or `/list/` would also reach `/list`. This is not modelled.

## Findings

| source | as written | input that shows it | evidently intended | confidence | as-written member | corrected member |
|---|---|---|---|---|---|---|
| routes/orderRoute.js:34 | The webhook uses `orderModel` (:34, :40) and `userModel` (:42), but the router imports neither (:1-4). The first store call therefore throws a `ReferenceError`, and the catch answers 500 before any write. | body `{transaction: {status: "confirmed", referenceId: "o1", id: 7}}` with order `o1` stored | import both models, so that the referenced order is marked paid with the transaction id and its owner's cart is emptied | high; not executed | `OrderRoute.WebhookAsShippedExample` | `OrderRoute.WebhookPaysReferencedOrder` |
