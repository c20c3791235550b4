/**
 * What `placeOrder` and the mapping it relies on promise, stated over the
 * functions that specify them.
 */
module OrderServiceProperties {
  import opened Types
  import opened Collaborators
  import opened OrderService

  // ---------------------------------------------------------------------------
  // Mapping

  /** Mapping request lines to line items loses nothing: the lines can be read back, in order. */
  lemma {:induction false} LineItemsRoundTrip(dtos: seq<OrderLineItemsDto>)
    ensures ToDtos(MapLineItems(dtos)) == dtos
  {
    if dtos != [] {
      var items := MapLineItems(dtos);
      assert items[1..] == MapLineItems(dtos[1..]);
      LineItemsRoundTrip(dtos[1..]);
    }
  }

  /** The order carries the generated number and exactly the request's lines. */
  lemma OrderRoundTrip(orderRequest: OrderRequest, orderNumber: string)
    ensures var order := MapFromOrderRequestToOrder(orderRequest, orderNumber);
      order.orderNumber == orderNumber && RequestOf(order) == orderRequest
  {
    LineItemsRoundTrip(orderRequest.orderLineItemsDtoList);
  }

  /** Two request lines map to the same line item only if they are equal (a corollary of `MapFromDto`'s round trip). */
  lemma MapFromDtoInjective(a: OrderLineItemsDto, b: OrderLineItemsDto)
    ensures MapFromDto(a) == MapFromDto(b) <==> a == b
  {
  }

  // ---------------------------------------------------------------------------
  // The SKU list

  /** Extraction distributes over concatenation: no SKU is dropped, merged or reordered. */
  lemma SkuCodesAppend(a: seq<OrderLineItems>, b: seq<OrderLineItems>)
    ensures SkuCodes(a + b) == SkuCodes(a) + SkuCodes(b)
  {
  }

  /** The lookup is asked about the request's SKU codes, one per line, in order, duplicates kept. */
  lemma RequestedSkuCodes(orderRequest: OrderRequest, orderNumber: string)
    ensures var codes := SkuCodes(MapFromOrderRequestToOrder(orderRequest, orderNumber).orderLineItemsList);
      |codes| == |orderRequest.orderLineItemsDtoList| &&
      forall i :: 0 <= i < |codes| ==> codes[i] == orderRequest.orderLineItemsDtoList[i].skuCode
  {
  }

  // ---------------------------------------------------------------------------
  // The decision and its effects

  /** An empty answer is refused with no write, although `allMatch` holds of it. */
  lemma EmptyResponseRejected(order: Order)
    ensures AllMatchInStock([])
    ensures PlaceOrderResult([]) == Thrown(IllegalArgumentException(NotInStockMessage))
    ensures PlaceOrderEffects(order, []) == []
  {
  }

  /** One entry out of stock refuses the order with no write. */
  lemma OutOfStockRejected(order: Order, responses: seq<InventoryResponse>, i: int)
    requires 0 <= i < |responses| && !responses[i].isInStock
    ensures PlaceOrderResult(responses) == Thrown(IllegalArgumentException(NotInStockMessage))
    ensures PlaceOrderEffects(order, responses) == []
  {
  }

  /** The call either succeeds and writes, or throws and writes nothing. */
  lemma EffectsIffReturned(order: Order, responses: seq<InventoryResponse>)
    ensures PlaceOrderResult(responses).Returned? <==> PlaceOrderEffects(order, responses) != []
  {
  }

  /**
   * A non-empty, all-in-stock answer places the order: it is saved once, then
   * one event carrying its order number goes to the notification topic.
   */
  lemma InStockSavesThenSends(order: Order, responses: seq<InventoryResponse>)
    requires |responses| > 0
    requires forall i :: 0 <= i < |responses| ==> responses[i].isInStock
    ensures PlaceOrderResult(responses) == Returned(SuccessMessage)
    ensures var effects := PlaceOrderEffects(order, responses);
      |effects| == 2 &&
      effects[0] == Saved(order) &&
      effects[1].Sent? && effects[1].topic == NotificationTopic &&
      effects[1].event.orderNumber == effects[0].order.orderNumber
  {
  }

  /**
   * In every placement the save comes before the send, and the sent number is
   * the saved order's. That each happens exactly once is `InStockSavesThenSends`.
   */
  lemma SaveBeforeSend(order: Order, responses: seq<InventoryResponse>, i: int, j: int)
    requires 0 <= i < |PlaceOrderEffects(order, responses)| && 0 <= j < |PlaceOrderEffects(order, responses)|
    requires PlaceOrderEffects(order, responses)[i].Saved? && PlaceOrderEffects(order, responses)[j].Sent?
    ensures i < j
    ensures PlaceOrderEffects(order, responses)[j].event.orderNumber == PlaceOrderEffects(order, responses)[i].order.orderNumber
  {
  }

  /**
   * The decision reads the answer only: a requested SKU the answer does not
   * mention does not stop the order.
   */
  lemma MissingSkuStillPlaced(orderRequest: OrderRequest, orderNumber: string, responses: seq<InventoryResponse>, k: int)
    requires 0 <= k < |orderRequest.orderLineItemsDtoList|
    requires forall j :: 0 <= j < |responses| ==> responses[j].skuCode != orderRequest.orderLineItemsDtoList[k].skuCode
    requires |responses| > 0
    requires forall j :: 0 <= j < |responses| ==> responses[j].isInStock
    ensures var order := MapFromOrderRequestToOrder(orderRequest, orderNumber);
      PlaceOrderResult(responses).Returned? &&
      PlaceOrderEffects(order, responses)[0] == Saved(order) &&
      order.orderLineItemsList[k].skuCode !in SkuCodesOf(responses)
  {
  }

  /** The SKU codes an inventory answer mentions. */
  function SkuCodesOf(responses: seq<InventoryResponse>): set<string>
  {
    set j | 0 <= j < |responses| :: responses[j].skuCode
  }

  /** Against the same answer, two requests are both placed or both refused. */
  lemma DecisionIgnoresRequest(r1: OrderRequest, n1: string, r2: OrderRequest, n2: string, responses: seq<InventoryResponse>)
    ensures PlaceOrderEffects(MapFromOrderRequestToOrder(r1, n1), responses) != []
        <==> PlaceOrderEffects(MapFromOrderRequestToOrder(r2, n2), responses) != []
  {
  }

  // ---------------------------------------------------------------------------
  // Scenarios

  /** Two lines, A1 (quantity 2) and B2 (quantity 1). */
  function TwoLineRequest(): OrderRequest
  {
    OrderRequest([OrderLineItemsDto("A1", 10, 2), OrderLineItemsDto("B2", 5, 1)])
  }

  /** Both codes in stock: one order with both lines is saved, and its number is sent. */
  method ScenarioBothInStock(orderNumber: string)
  {
    var log := new EffectLog();
    var repository := new OrderRepository(log);
    var template := new KafkaTemplate(log);
    var service := new OrderServiceImpl(repository, template);
    var result, skus := service.PlaceOrder(TwoLineRequest(), orderNumber,
      [InventoryResponse("A1", true), InventoryResponse("B2", true)]);
    assert skus == ["A1", "B2"];
    assert result == Returned(SuccessMessage);
    assert |repository.orders| == 1 && |repository.orders[0].orderLineItemsList| == 2;
    assert template.sent == [(NotificationTopic, OrderPlacedEvent(orderNumber))];
  }

  /** B2 missing from the answer: the order is still placed. */
  method ScenarioMissingSku(orderNumber: string)
  {
    var log := new EffectLog();
    var repository := new OrderRepository(log);
    var template := new KafkaTemplate(log);
    var service := new OrderServiceImpl(repository, template);
    var result, _ := service.PlaceOrder(TwoLineRequest(), orderNumber, [InventoryResponse("A1", true)]);
    assert result == Returned(SuccessMessage);
    assert |repository.orders| == 1;
    assert log.entries[0].Saved? && log.entries[1].Sent?;
  }

  /** Out of stock: the exception is thrown and neither store changes. */
  method ScenarioOutOfStock(orderNumber: string)
  {
    var log := new EffectLog();
    var repository := new OrderRepository(log);
    var template := new KafkaTemplate(log);
    var service := new OrderServiceImpl(repository, template);
    var result, _ := service.PlaceOrder(TwoLineRequest(), orderNumber,
      [InventoryResponse("A1", true), InventoryResponse("B2", false)]);
    assert result.Thrown?;
    assert repository.orders == [] && template.sent == [] && log.entries == [];
  }
}
