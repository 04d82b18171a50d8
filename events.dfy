/** What the HTTP route handlers publish through the socket server: an event
    name and its payload, addressed to one room (`io.to(room).emit(...)`).
    Delivery itself is not modelled; the store keeps the emissions in order. */
module Events {
  import opened OrderModel

  datatype Payload =
    | AcceptedPayload(orderId: string, partnerName: string, partnerPhone: string, estimatedDelivery: Instant)
    | AssignedPayload(orderId: string, customerName: string, partnerName: string, timestamp: Instant)
    | RemovedPayload(orderId: string)
    | NewOrderPayload(orderId: string, customerName: string, total: int, items: seq<OrderItem>,
                      deliveryAddress: Address, timestamp: Instant)

  datatype Emission = Emission(room: string, event: string, payload: Payload)

  /** `${firstName} ${lastName}` */
  function FullName(p: Profile): string {
    p.firstName + " " + p.lastName
  }

  /** Thirty minutes, in milliseconds: the estimated delivery offset. */
  const DeliveryEstimate: int := 30 * 60 * 1000
}
