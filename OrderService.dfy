/**
 * The order service of the order microservice: turning an order request into
 * an `Order` entity, and placing it when the inventory answer allows.
 *
 * The pure parts (the DTO mapping, the SKU list, the in-stock test and the
 * decision) are functions; `placeOrder`, which writes to the repository and
 * to the Kafka topic, is a method of `OrderServiceImpl`.
 */
module OrderService {
  import opened Types
  import opened Collaborators

  /** The topic the order-placed event is sent to. */
  const NotificationTopic: string := "notificationTopic"

  /** The string `placeOrder` returns on success, spelled as the service spells it. */
  const SuccessMessage: string := "Oder placed successfully"

  /** The message of the exception `placeOrder` throws when it refuses the order. */
  const NotInStockMessage: string := "Product is not in stock, please try again later"

  // ---------------------------------------------------------------------------
  // DTO to entity mapping

  /** The DTO a line item was built from: the partner of `MapFromDto`. */
  function ToDto(item: OrderLineItems): OrderLineItemsDto
  {
    OrderLineItemsDto(item.skuCode, item.price, item.quantity)
  }

  /** Builds the persisted line item from a request line: every field is copied unchanged. */
  function MapFromDto(dto: OrderLineItemsDto): (item: OrderLineItems)
    ensures ToDto(item) == dto
  {
    OrderLineItems(dto.skuCode, dto.price, dto.quantity)
  }

  /** The stream `map(mapFromDto).toList()` over the request lines. */
  function MapLineItems(dtos: seq<OrderLineItemsDto>): (items: seq<OrderLineItems>)
    ensures |items| == |dtos|
    ensures forall i :: 0 <= i < |dtos| ==> items[i] == MapFromDto(dtos[i])
  {
    if dtos == [] then [] else [MapFromDto(dtos[0])] + MapLineItems(dtos[1..])
  }

  /** The request lines an order's line items were built from: the partner of `MapLineItems`. */
  function ToDtos(items: seq<OrderLineItems>): seq<OrderLineItemsDto>
  {
    if items == [] then [] else [ToDto(items[0])] + ToDtos(items[1..])
  }

  /** The request an order was built from: the partner of `MapFromOrderRequestToOrder`. */
  function RequestOf(order: Order): OrderRequest
  {
    OrderRequest(ToDtos(order.orderLineItemsList))
  }

  /** Builds the order entity; `orderNumber` stands for the freshly generated UUID. */
  function MapFromOrderRequestToOrder(orderRequest: OrderRequest, orderNumber: string): (order: Order)
    ensures order.orderNumber == orderNumber
    ensures |order.orderLineItemsList| == |orderRequest.orderLineItemsDtoList|
    ensures forall i :: 0 <= i < |orderRequest.orderLineItemsDtoList| ==>
              order.orderLineItemsList[i] == MapFromDto(orderRequest.orderLineItemsDtoList[i])
  {
    Order(orderNumber, MapLineItems(orderRequest.orderLineItemsDtoList))
  }

  // ---------------------------------------------------------------------------
  // Inventory lookup and the placement decision

  /** The SKU codes of the line items, in order, duplicates kept: what the inventory lookup is asked about. */
  function SkuCodes(items: seq<OrderLineItems>): (codes: seq<string>)
    ensures |codes| == |items|
    ensures forall i :: 0 <= i < |items| ==> codes[i] == items[i].skuCode
  {
    if items == [] then [] else [items[0].skuCode] + SkuCodes(items[1..])
  }

  /** `allMatch(InventoryResponse::getIsInStock)`: true of the empty answer. */
  function AllMatchInStock(responses: seq<InventoryResponse>): (b: bool)
    ensures b <==> forall i :: 0 <= i < |responses| ==> responses[i].isInStock
  {
    if responses == [] then true
    else responses[0].isInStock && AllMatchInStock(responses[1..])
  }

  /** The guard of the placing branch: all entries in stock and the answer not empty. */
  function CanPlace(responses: seq<InventoryResponse>): (b: bool)
    ensures b <==> |responses| > 0 && forall i :: 0 <= i < |responses| ==> responses[i].isInStock
    ensures !b <==> responses == [] || exists i :: 0 <= i < |responses| && !responses[i].isInStock
  {
    AllMatchInStock(responses) && |responses| != 0
  }

  /** What `placeOrder` returns or throws for a given inventory answer. */
  function PlaceOrderResult(responses: seq<InventoryResponse>): (r: PlaceResult)
    ensures r.Returned? <==> |responses| > 0 && forall i :: 0 <= i < |responses| ==> responses[i].isInStock
    ensures r.Returned? ==> r.value == SuccessMessage
    ensures r.Thrown? ==> r.exception == IllegalArgumentException(NotInStockMessage)
  {
    if CanPlace(responses) then Returned(SuccessMessage)
    else Thrown(IllegalArgumentException(NotInStockMessage))
  }

  /** The writes `placeOrder` makes, in the order it makes them. */
  function PlaceOrderEffects(order: Order, responses: seq<InventoryResponse>): (effects: seq<Effect>)
    ensures effects != [] <==> |responses| > 0 && forall i :: 0 <= i < |responses| ==> responses[i].isInStock
  {
    if CanPlace(responses)
    then [Saved(order), Sent(NotificationTopic, OrderPlacedEvent(order.orderNumber))]
    else []
  }

  // ---------------------------------------------------------------------------
  // The service

  class OrderServiceImpl {
    const orderRepository: OrderRepository
    const kafkaTemplate: KafkaTemplate

    /** Both collaborators report their write calls to the same effect log. */
    ghost predicate Valid()
    {
      orderRepository.log == kafkaTemplate.log
    }

    constructor (orderRepository: OrderRepository, kafkaTemplate: KafkaTemplate)
      requires orderRepository.log == kafkaTemplate.log
      ensures Valid()
      ensures this.orderRepository == orderRepository && this.kafkaTemplate == kafkaTemplate
    {
      this.orderRepository := orderRepository;
      this.kafkaTemplate := kafkaTemplate;
    }

    /**
     * `placeOrder`. `orderNumber` is the generated UUID and `inventoryResponse`
     * the answer of the inventory service; `skuCodes` is the list that
     * service is asked about.
     */
    method PlaceOrder(orderRequest: OrderRequest, orderNumber: string, inventoryResponse: seq<InventoryResponse>)
      returns (result: PlaceResult, skuCodes: seq<string>)
      requires Valid()
      modifies orderRepository, kafkaTemplate, orderRepository.log
      ensures var order := MapFromOrderRequestToOrder(orderRequest, orderNumber);
        && skuCodes == SkuCodes(order.orderLineItemsList)
        && result == PlaceOrderResult(inventoryResponse)
        && orderRepository.orders == old(orderRepository.orders) + (if result.Returned? then [order] else [])
        && kafkaTemplate.sent == old(kafkaTemplate.sent)
             + (if result.Returned? then [(NotificationTopic, OrderPlacedEvent(orderNumber))] else [])
        && orderRepository.log.entries == old(orderRepository.log.entries) + PlaceOrderEffects(order, inventoryResponse)
    {
      var order := MapFromOrderRequestToOrder(orderRequest, orderNumber);
      skuCodes := SkuCodes(order.orderLineItemsList);
      var allProductsInStock := AllMatchInStock(inventoryResponse);
      if allProductsInStock && |inventoryResponse| != 0 {
        var _ := orderRepository.Save(order);
        kafkaTemplate.Send(NotificationTopic, OrderPlacedEvent(order.orderNumber));
        result := Returned(SuccessMessage);
      } else {
        result := Thrown(IllegalArgumentException(NotInStockMessage));
      }
    }
  }
}
