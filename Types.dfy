/**
 * The values the order service passes around: the request DTOs it receives,
 * the entities it persists, the inventory answers it reads and the event it
 * publishes. None of them is updated in place by the service.
 */
module Types {

  /** One line of an incoming order request. `price` stands for a BigDecimal
      that the service only copies, never computes with. */
  datatype OrderLineItemsDto = OrderLineItemsDto(skuCode: string, price: int, quantity: int)

  /** An incoming order request: its line items, in the order the client sent them. */
  datatype OrderRequest = OrderRequest(orderLineItemsDtoList: seq<OrderLineItemsDto>)

  /** The persisted form of one line item. */
  datatype OrderLineItems = OrderLineItems(skuCode: string, price: int, quantity: int)

  /** The persisted order: a generated order number and its line items. */
  datatype Order = Order(orderNumber: string, orderLineItemsList: seq<OrderLineItems>)

  /** One entry of the inventory service's answer. */
  datatype InventoryResponse = InventoryResponse(skuCode: string, isInStock: bool)

  /** The event published once an order has been saved. */
  datatype OrderPlacedEvent = OrderPlacedEvent(orderNumber: string)

  /** What leaves `placeOrder`: the string it returns, or the exception it throws. */
  datatype Exception = IllegalArgumentException(message: string)

  datatype PlaceResult = Returned(value: string) | Thrown(exception: Exception)
}
