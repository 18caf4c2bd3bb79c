# E-commerce product and order backend — a Dafny model

This project models the data-handling core of a small serverless e-commerce
backend: two DynamoDB-backed repositories (products keyed by `id`, orders keyed
by the pair owner email / order id), the HTTP handlers that route API Gateway
requests to them, the domain events the handlers emit after each change, and
the relay that writes product events into a short-lived event-log table.

The tables become maps held by classes (`ProductRepository.table`,
`OrdersRepository.table`, `EventsTable.entries`), and each repository
operation is a method whose contract states the new table and the result in
terms of the old table. The handlers are methods over those repositories. The
pure transformations (building an order, converting it to the client's shape,
building the event envelope and the event-log entry) are functions or
loop-carrying methods proved against specification functions and predicates.

Nondeterministic inputs are parameters: the fresh id from `uuid()`, the clock
`Date.now()`, the invocation's request id, and the outcome of each
`Lambda.invoke` / `SNS.publish` call (`Dispatch`: delivered, or failed with a
message). A handler's result is an `Outcome`: a reply (status code and body)
or a `Crash` for an exception the handler does not catch. Bodies are kept as
values (`Body`) rather than JSON text, except the literal 400 bodies.

Files: `common.dfy` (shared datatypes, the table scan), `product_repository.dfy`,
`orders_repository.dfy`, `events_repository.dfy` (product event types),
`events_fetch.dfy` (the relay), `products_fetch.dfy`, `products_admin.dfy`,
`orders_function.dfy`.

Behaviour of the code that a reader might not expect, and that the model keeps:

- Every request routed to the admin handler on `/products` creates a product; the method is not checked.
- On `PUT /products/{id}` any exception, including a failed event dispatch after a successful update, is answered 404 'Product not found'.
- Event dispatch is awaited, not fire-and-forget: after a create a failed dispatch rejects the handler; after a product or order delete it becomes a 404 carrying the dispatch error; after an order is placed it rejects the handler. The store change is never undone.
- The event-log `ttl` is `~~(timestamp / 1000) + 300`: truncated, not rounded up (it can fall up to 999 ms short of five minutes), and the 32-bit conversion wraps from January 2038.
- Two events of the same product and type in the same millisecond share a key, so the relay's second write replaces the first.
- An order whose `productIds` repeats an id or holds an empty id is never created: DynamoDB rejects the batch get with a validation error, and since the POST branch has no `try`, the handler rejects. An order whose email is empty is rejected the same way by the put, after the products were found. A DELETE with an empty `email` or `orderId` is answered 404 with the validation message. That is what the handler does if such a request reaches it; the gateway's request validator, which requires both query parameters, does not let it through.

## Model

| member | source | states |
|---|---|---|
| ProductStore.ProductRepository.constructor | lambda/products/layers/productsLayer/nodejs/productRepository.ts:20-23 | the repository holds the given table, each item stored under its own `id` |
| ProductStore.ProductRepository.GetAllProducts | lambda/products/layers/productsLayer/nodejs/productRepository.ts:27-37 | returns every stored product exactly once and nothing else (as many items as the table holds) |
| ProductStore.ProductRepository.GetProductById | lambda/products/layers/productsLayer/nodejs/productRepository.ts:39-54 | succeeds exactly when the id is stored, with the stored record (whose `id` is the requested one); otherwise fails with 'Product not found'; reads only |
| ProductStore.ProductRepository.GetProductsByIds | lambda/products/layers/productsLayer/nodejs/productRepository.ts:56-70 | fails with DynamoDB's validation error exactly when there is no id or an id is empty or repeated; otherwise returns the batch-get answer `Resolve(table, ids)`: stored products of requested ids only, missing ids dropped |
| ProductStore.ResolveSound | lambda/products/layers/productsLayer/nodejs/productRepository.ts:56-70 | every returned product is the stored record of a requested id |
| ProductStore.ResolveComplete | lambda/products/layers/productsLayer/nodejs/productRepository.ts:56-70 | every requested id that is stored is answered |
| ProductStore.ResolveDistinct | lambda/products/layers/productsLayer/nodejs/productRepository.ts:56-70 | no product is returned twice |
| ProductStore.ResolveCount | lambda/products/layers/productsLayer/nodejs/productRepository.ts:56-70 | the answer has exactly as many products as there are distinct requested ids that are stored |
| ProductStore.ResolveAllFound | lambda/products/layers/productsLayer/nodejs/productRepository.ts:56-70 | the answer is never longer than the request, and as long exactly when every id is stored and none repeats |
| ProductStore.CountCheckFindsMissing | lambda/orders/ordersFunction.ts:84-86 | on a batch get DynamoDB accepts, the answer is as long as the request exactly when every requested id is stored, so the count check detects exactly the missing products |
| ProductStore.ProductRepository.CreateProduct | lambda/products/layers/productsLayer/nodejs/productRepository.ts:72-82 | the caller's id is replaced by the fresh one; the record is stored under it and returned; no other item changes |
| ProductStore.ProductRepository.DeleteProduct | lambda/products/layers/productsLayer/nodejs/productRepository.ts:84-102 | a stored id is removed and its pre-delete record returned; an absent id fails with 'Product not found' and leaves the table as it was |
| ProductStore.ProductRepository.UpdateProduct | lambda/products/layers/productsLayer/nodejs/productRepository.ts:104-126 | on an absent id the condition fails and nothing is written (no upsert); otherwise the five descriptive attributes are replaced, the id kept, and the returned record is the new item with `id` = productId; no other item changes |
| ProductStore.CreateGetDelete | lambda/products/layers/productsLayer/nodejs/productRepository.ts:39-102 | a created product is fetched back unchanged by its new id, a delete returns that same record, a second delete fails with 'Product not found', and the table ends as it began |
| ProductStore.UpdateThenGet | lambda/products/layers/productsLayer/nodejs/productRepository.ts:104-125 | an update succeeds exactly on a stored id and is what the next get returns; a failed update leaves the table unchanged and the id still absent |
| OrderStore.OrdersRepository.constructor | lambda/orders/layers/ordersLayer/nodejs/ordersRepository.ts:27-30 | the repository holds the given table, each order under its own (pk, sk), neither part empty, and stamped with its creation time |
| OrderStore.OrdersRepository.GetAllOrders | lambda/orders/layers/ordersLayer/nodejs/ordersRepository.ts:35-46 | returns every stored order exactly once and nothing else |
| OrderStore.OrdersRepository.GetOrderByEmail | lambda/orders/layers/ordersLayer/nodejs/ordersRepository.ts:49-59 | returns exactly the stored orders whose `pk` is the email, each once, never another owner's |
| OrderStore.OrdersRepository.GetOrderByIdEmail | lambda/orders/layers/ordersLayer/nodejs/ordersRepository.ts:61-75 | succeeds exactly when (email, orderId) is stored, with that record; a key with an empty part fails with DynamoDB's validation error, any other key with 'Order not found' |
| OrderStore.OrdersRepository.CreateOrder | lambda/orders/layers/ordersLayer/nodejs/ordersRepository.ts:77-88 | a key with an empty part is rejected with the validation error and nothing is written; otherwise the order gets the fresh `sk` and `createdAt` = now (so `createdAt` is always present), owner, billing, shipping and products are kept, and it is stored under (pk, fresh id) and returned |
| OrderStore.OrdersRepository.DeleteOrder | lambda/orders/layers/ordersLayer/nodejs/ordersRepository.ts:90-105 | a key with an empty part is rejected with the validation error; a stored key is removed and its pre-delete snapshot returned, every other key kept; an absent key fails with 'Order not found'; on failure nothing changes |
| OrderStore.SameIdOtherOwner | lambda/orders/layers/ordersLayer/nodejs/ordersRepository.ts:61-105 | orders of two owners with the same order id are distinct records: creating and deleting one leaves the other fetchable and the table as it was |
| ProductEvents.EventTypeName | lambda/products/layers/eventsLayer/nodejs/eventsRepository.ts:1-5 | every event type's string value is 15 characters long and contains no '#' |
| ProductEvents.EventTypeNameInjective | lambda/products/layers/eventsLayer/nodejs/eventsRepository.ts:1-5 | different event types have different string values |
| EventsFetch.ToInt32 | lambda/products/eventsFetchFunction.ts:42 | the result is a signed 32-bit integer congruent to the input modulo 2^32, and equal to it when it already fits |
| EventsFetch.NatToString | lambda/products/eventsFetchFunction.ts:48 | the text of a timestamp is a non-empty string of decimal digits, one digit long exactly below 10 |
| EventsFetch.NatToStringValue | lambda/products/eventsFetchFunction.ts:48 | the text is the decimal numeral of the timestamp: its digits denote it, with no leading zero |
| EventsFetch.NatToStringInjective | lambda/products/eventsFetchFunction.ts:48 | different timestamps give different texts |
| EventsFetch.CreateEvent | lambda/products/eventsFetchFunction.ts:39-60 | the entry's keys are `#product_<code>` and `<type>#<timestamp>`, `createdAt` is the timestamp, email, request id and type are copied, `info` is the product id and price; before 2^31 s the expiry in ms lies in (timestamp + 299000, timestamp + 300000] |
| EventsFetch.TtlTruncates | lambda/products/eventsFetchFunction.ts:42 | before 2^31 s the expiry in ms is the timestamp truncated to whole seconds plus 300000, so an event not on a whole second expires short of five minutes after it |
| EventsFetch.TtlWrapsFrom2038 | lambda/products/eventsFetchFunction.ts:42 | at 2^31 s after the epoch the expiry is negative, before the event |
| EventsFetch.EntryKeysDiffer | lambda/products/eventsFetchFunction.ts:47-48 | entries of one product share the partition key and have different sort keys whenever their types or timestamps differ |
| EventsFetch.SameInstantSameKey | lambda/products/eventsFetchFunction.ts:47-48 | two events of one product and type in the same millisecond get the same key |
| EventsFetch.EventsTable.constructor | lambda/products/eventsFetchFunction.ts:8-9 | the event-log table starts with the given entries |
| EventsFetch.EventsTable.Put | lambda/products/eventsFetchFunction.ts:44-59 | the entry is stored under (pk, sk), replacing any entry there; every other key is unchanged |
| EventsFetch.Handler | lambda/products/eventsFetchFunction.ts:14-37 | exactly one entry, built from the event and the current time, is written; then the acknowledgement `productEventCreated: true`, 'ok' |
| ProductsFetch.Handler | lambda/products/productsFetchFunction.ts:13-66 | GET `/products` answers 200 with every stored product once; `/products/{id}` with any method answers 200 with the stored record or 404 'Product not found'; other methods on `/products` and other resources answer 400 `{"message":"Bad request"}`; the store is only read |
| ProductsAdmin.ProductEvent | lambda/products/productsAdminFunction.ts:97-105 | the event carries the product's id, code and price and the given type, email and request id |
| ProductsAdmin.SentEventIsLogged | lambda/products/productsAdminFunction.ts:97-105 | the relay files a sent event under `#product_<code>` with the product's id and price and the event's type, email and request id |
| ProductsAdmin.Handler | lambda/products/productsAdminFunction.ts:16-95 | `/products` (any method) creates, invokes the relay with a CREATED event and answers 201 with the record (a failed invoke rejects); PUT on `/products/{id}` updates, invokes with an UPDATED event and answers 200, or 404 'Product not found' on an absent id, a missing body (nothing invoked) or a failed invoke; DELETE removes, invokes with a DELETED event and answers 200 with the snapshot, or 404 with the error; anything else 400; an event is invoked only after the store change succeeded and a failed invoke never undoes it |
| OrdersHandler.TotalPermutation | lambda/orders/ordersFunction.ts:206-214 | the order total does not depend on the order of the lines |
| OrdersHandler.BuildOrder | lambda/orders/ordersFunction.ts:203-230 | the order belongs to the request's email, copies its payment and shipping, has one `{code, price}` line per resolved product in the same order, and its total is the sum of those prices; without shipping it throws |
| OrdersHandler.ToResponse | lambda/orders/ordersFunction.ts:170-196 | `pk` becomes `email`, `sk` becomes `id`, and renaming back gives the stored order (creation time, lines, billing and shipping unchanged) |
| OrdersHandler.ResponseRoundTrip | lambda/orders/ordersFunction.ts:170-196 | every client-shaped order is the conversion of exactly one stored order |
| OrdersHandler.ConvertToOrderResponse | lambda/orders/ordersFunction.ts:170-196 | the loop copying the lines yields exactly `ToResponse(order)` |
| OrdersHandler.ConvertAll | lambda/orders/ordersFunction.ts:66 | each listed order is converted, in order |
| OrdersHandler.OrderEnvelope | lambda/orders/ordersFunction.ts:144-161 | the envelope carries the given type, and its event lists the order's product codes in order, `email` = pk, `orderId` = sk, billing, shipping and the request id |
| OrdersHandler.Handler | lambda/orders/ordersFunction.ts:28-141 | GET without query lists every order; with a non-empty email lists exactly that owner's orders, or with a non-empty orderId too answers the order or 404 'Order not found'; a query without email answers 400; POST rejects (store untouched) when an id is empty or repeated, answers 404 'Some product was not found' when an id is not stored, rejects on missing shipping or an empty email, and otherwise stores the built order under the fresh id, publishes a CREATED envelope and answers 201 (a failed publish rejects); DELETE answers 404 with the validation message on an empty key part, 404 'Order not found' on an absent key, else removes the order, publishes a DELETE envelope and answers 200 (404 with the error on a failed publish); other methods 400 'Bad Request'; every returned order has its creation time |

## Left out

- JSON parsing and serialisation: request bodies arrive parsed, replies keep their records as values; the envelope's `data` is the event record itself, not its text. A body that is not JSON (which makes `JSON.parse` throw) is not represented.
- The DynamoDB document client, the SNS and Lambda clients, X-Ray capture and `console.log` are foreign I/O. Store calls are modelled as always reaching the table; throttling and service errors are not modelled. Only the outcome of an event dispatch is a parameter.
- `uuid()`, `Date.now()` and the request ids are parameters; a fresh id is assumed not to be a key already.
- ProductStore.ProductRepository.GetAllProducts: assumes the table fits in one scan page; the source ignores `LastEvaluatedKey` and would return only the first 1 MB of items.
- OrderStore.OrdersRepository.GetAllOrders: assumes one scan page, as above.
- OrderStore.OrdersRepository.GetOrderByEmail: requires a non-empty email, which the handler's truthiness test guarantees; DynamoDB's rejection of a query on an empty email is not modelled. It does not state that a query returns an owner's orders in ascending order of `sk`, because string ordering is not modelled; one result page is assumed.
- ProductStore.ProductRepository.GetProductsByIds: fixes the answer to request order, where DynamoDB returns items in no particular order (`TotalPermutation` shows the order total does not depend on it); the 100-key limit and unprocessed keys are not modelled. When a request has both an empty and a repeated id, the model reports the empty-key error; which of the two DynamoDB reports is not modelled.
- Prices are whole numbers (cents) rather than JavaScript floating-point numbers, so sums are exact.
- Product fields are always present: a create body without `price`, `model` or `productUrl` (allowed by the request schema) is not represented.
- Shipping type and carrier are the declared enumerations; values outside them, which the gateway does not check, are not represented. A missing shipping object is modelled.
- DynamoDB's rejection of empty-string key values is modelled for the batch get and for the order get, put and delete; the message names the first empty key attribute. The product handlers take ids from the path, which the gateway never routes empty, and from `uuid()`, so empty product keys are not represented.
- The API Gateway request schemas appear only as `requires` on the handlers (a POST order body with at least one product id, DELETE with `email` and `orderId`, a body for product creation); the infrastructure stacks are not part of this model.
- The built order has no `sk` until `createOrder` assigns one; the model uses the empty string.
- EventsFetch.CreateEvent: the expiry bound is stated only for timestamps before 2^31 seconds after the epoch; beyond that the 32-bit wrap is modelled and `TtlWrapsFrom2038` shows its effect.
- A failed write to the event-log table is not modelled (the relay is assumed to write).
- TTL expiry itself is done by DynamoDB and is not modelled; neither are duplicate or lost event deliveries, concurrent requests, or the `EventsRepository` class, which is empty.
- The order event and API types live in layers not included in the repository (`ordersApiLayer`, `ordersEventsLayer`); their shapes are taken from how `ordersFunction.ts` uses them, and the string values of `OrderEventType` are not known.
