# Order placement in the order service

A model of the order-placement logic of the order microservice
(`OrderServiceImpl`): an incoming `OrderRequest` is mapped to an `Order`
entity under a fresh order number; the SKU codes of its line items are sent to
the inventory service; if the answer is non-empty and every entry is in stock
the order is saved through the order repository and an `OrderPlacedEvent`
carrying the order number is sent to the Kafka topic `notificationTopic`;
otherwise an `IllegalArgumentException` is thrown and nothing is written.

Files:

- `Types.dfy` — the request DTOs, the `Order` / `OrderLineItems` entities, the
  inventory answer, the event, and the returned-or-thrown result.
- `Collaborators.dfy` — the order repository (a sequence of saved orders) and
  the Kafka template (a sequence of sent `(topic, event)` pairs). Both report
  every call to one shared `EffectLog`, so the order in which `save` and
  `send` are called can be stated.
- `OrderService.dfy` — the mapping functions, the SKU list, the `allMatch`
  test, the decision, and the class `OrderServiceImpl` whose method
  `PlaceOrder` performs the writes.
- `OrderServiceProperties.dfy` — lemmas about the decision and the mapping,
  and three client scenarios verified against the class contract.

Inputs that the running service obtains from outside are parameters here:
the UUID (`orderNumber`) and the inventory service's answer
(`inventoryResponse`). `PlaceOrder` also returns the list of SKU codes that
the inventory service is queried with.

The code does not validate quantities or prices, does not deduplicate the SKU
codes it queries, and does not check that every requested SKU appears in the
answer: an all-in-stock answer that omits a requested SKU still places the
order (see `MissingSkuStillPlaced` and `ScenarioMissingSku`). It has no
separate error for a failed publish. The model does the same.

## Model

| member | source | states |
|---|---|---|
| `OrderService.MapFromDto` | order-service/src/main/java/com/bulyha/notificationservice/orderservice/service/OrderServiceImpl.java:92-99 | the built line item gives back exactly the DTO it came from: price, quantity and SKU code copied unchanged |
| `OrderService.MapLineItems` | order-service/src/main/java/com/bulyha/notificationservice/orderservice/service/OrderServiceImpl.java:81-84 | as many line items as request lines, the i-th built from the i-th line |
| `OrderService.MapFromOrderRequestToOrder` | order-service/src/main/java/com/bulyha/notificationservice/orderservice/service/OrderServiceImpl.java:79-90 | the order carries the given order number and one line item per request line, in request order |
| `OrderService.SkuCodes` | order-service/src/main/java/com/bulyha/notificationservice/orderservice/service/OrderServiceImpl.java:44-46 | one SKU code per line item, the i-th being the i-th item's code, duplicates kept |
| `OrderService.AllMatchInStock` | order-service/src/main/java/com/bulyha/notificationservice/orderservice/service/OrderServiceImpl.java:59-60 | true exactly when every entry of the answer is in stock (so also for the empty answer) |
| `OrderService.CanPlace` | order-service/src/main/java/com/bulyha/notificationservice/orderservice/service/OrderServiceImpl.java:59-62 | the order is placed exactly when the answer is non-empty and all in stock; refused exactly when it is empty or some entry is out of stock |
| `OrderService.PlaceOrderResult` | order-service/src/main/java/com/bulyha/notificationservice/orderservice/service/OrderServiceImpl.java:62-69 | the call returns the success string exactly when the answer is non-empty and all in stock, and otherwise throws `IllegalArgumentException` with the out-of-stock message |
| `OrderService.PlaceOrderEffects` | order-service/src/main/java/com/bulyha/notificationservice/orderservice/service/OrderServiceImpl.java:62-65 | the calls to the stores, in call order: save then send on a non-empty all-in-stock answer, and none otherwise |
| `OrderService.OrderServiceImpl.constructor` | order-service/src/main/java/com/bulyha/notificationservice/orderservice/service/OrderServiceImpl.java:33-38 | the service keeps the order repository and the Kafka template it is given, both reporting to one effect log; the web client builder and the tracer are not kept |
| `OrderService.OrderServiceImpl.PlaceOrder` | order-service/src/main/java/com/bulyha/notificationservice/orderservice/service/OrderServiceImpl.java:40-77 | queries the SKU list of the mapped order; on success appends that order to the repository, one `(notificationTopic, OrderPlacedEvent(orderNumber))` to the topic and the writes save-then-send to the log; on failure leaves all three unchanged |
| `Collaborators.OrderRepository.Save` | order-service/src/main/java/com/bulyha/notificationservice/orderservice/service/OrderServiceImpl.java:63 | the saved order is appended to the store and returned |
| `Collaborators.KafkaTemplate.Send` | order-service/src/main/java/com/bulyha/notificationservice/orderservice/service/OrderServiceImpl.java:64 | the (topic, event) pair is appended to the sent events |
| `OrderServiceProperties.LineItemsRoundTrip` | order-service/src/main/java/com/bulyha/notificationservice/orderservice/service/OrderServiceImpl.java:81-84 | the request lines can be read back from the line items, in order and complete |
| `OrderServiceProperties.OrderRoundTrip` | order-service/src/main/java/com/bulyha/notificationservice/orderservice/service/OrderServiceImpl.java:79-90 | the order determines the request it was built from, and carries the given order number |
| `OrderServiceProperties.MapFromDtoInjective` | order-service/src/main/java/com/bulyha/notificationservice/orderservice/service/OrderServiceImpl.java:92-99 | distinct request lines give distinct line items |
| `OrderServiceProperties.SkuCodesAppend` | order-service/src/main/java/com/bulyha/notificationservice/orderservice/service/OrderServiceImpl.java:44-46 | extracting SKU codes distributes over concatenation: nothing dropped, merged or reordered |
| `OrderServiceProperties.RequestedSkuCodes` | order-service/src/main/java/com/bulyha/notificationservice/orderservice/service/OrderServiceImpl.java:42-46 | the queried SKU list is the request lines' SKU codes, one per line, in order |
| `OrderServiceProperties.EmptyResponseRejected` | order-service/src/main/java/com/bulyha/notificationservice/orderservice/service/OrderServiceImpl.java:59-68 | the empty answer passes `allMatch` yet is refused with the exception and no write |
| `OrderServiceProperties.OutOfStockRejected` | order-service/src/main/java/com/bulyha/notificationservice/orderservice/service/OrderServiceImpl.java:59-68 | any out-of-stock entry makes the call throw and write nothing |
| `OrderServiceProperties.EffectsIffReturned` | order-service/src/main/java/com/bulyha/notificationservice/orderservice/service/OrderServiceImpl.java:62-69 | the call writes something exactly when it returns normally |
| `OrderServiceProperties.InStockSavesThenSends` | order-service/src/main/java/com/bulyha/notificationservice/orderservice/service/OrderServiceImpl.java:62-65 | a non-empty all-in-stock answer returns success, saves the order once and then sends one event to `notificationTopic` carrying the saved order's number |
| `OrderServiceProperties.SaveBeforeSend` | order-service/src/main/java/com/bulyha/notificationservice/orderservice/service/OrderServiceImpl.java:63-64 | in any run, the save precedes the send and the sent order number is the saved order's |
| `OrderServiceProperties.MissingSkuStillPlaced` | order-service/src/main/java/com/bulyha/notificationservice/orderservice/service/OrderServiceImpl.java:59-63 | a non-empty all-in-stock answer that omits a requested SKU still places and saves the order |
| `OrderServiceProperties.DecisionIgnoresRequest` | order-service/src/main/java/com/bulyha/notificationservice/orderservice/service/OrderServiceImpl.java:59-62 | whether an order is placed does not depend on the request: against the same answer two requests are both placed or both refused |

## Left out

- The HTTP call to the inventory service through `WebClient` and `block()`: the answer is a parameter and a sequence is never null. In the service a `null` answer makes `Arrays.stream` (line 59) throw a `NullPointerException` rather than the `IllegalArgumentException`, with nothing written; that path is not modelled.
- Kafka delivery: only the fact that a send was made is recorded, not its acknowledgment or failure.
- `UUID.randomUUID()`: the order number is a parameter, so its freshness is not modelled.
- The tracing span (`nextSpan`, `withSpan`, and `end()` in the `finally` block, which runs on every path) and logging.
- The class-level `@Transactional` (line 23): in the service the save commits only when `placeOrder` returns, so after the `send` call, and it is rolled back if a later step throws. The model records the order of the `save` and `send` calls, not of durable commits.
- `BigDecimal` prices: a price is only copied, so it is an `int`.
- Persistence ids: the `Order` and `OrderLineItems` entity classes are not part of this model; their fields are taken from the builder calls, and any id the repository assigns on save is not modelled.
- A request whose line-item list is `null`: a sequence is never null.
- The `EffectLog` shared by the repository and the template is a device of the model that records the order of the two calls; the system has no such object.
- The repository interfaces (order, inventory, product) are generated by the persistence library and have no bodies; the discovery server and its security configuration are framework setup.
