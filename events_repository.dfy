/** The product lifecycle event that the admin handler sends to the event relay. */
module ProductEvents {

  datatype EventType = CREATED | UPDATED | DELETED

  /** The string value of each enum member. */
  function EventTypeName(t: EventType): (name: string)
    ensures |name| == 15 && '#' !in name
  {
    match t
    case CREATED => "PRODUCT_CREATED"
    case UPDATED => "PRODUCT_UPDATED"
    case DELETED => "PRODUCT_DELETED"
  }

  /** Different event types have different names. */
  lemma EventTypeNameInjective(t: EventType, u: EventType)
    requires EventTypeName(t) == EventTypeName(u)
    ensures t == u
  {
  }

  datatype Event = Event(
    requestId: string,
    eventType: EventType,
    productId: string,
    productCode: string,
    productPrice: int,
    email: string)
}
