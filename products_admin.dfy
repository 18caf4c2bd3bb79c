/**
 * The product administration handler: creates, updates and deletes products
 * and, after each successful change, sends a product event to the relay.
 */
module ProductsAdmin {
  import opened Common
  import opened ProductStore
  import opened ProductEvents
  import EventsFetch

  /**
   * The parts of an API Gateway proxy event the handler looks at; `body` is
   * the parsed JSON body, `None` when the request has none.
   */
  datatype Request = Request(resource: string, httpMethod: string, pathId: string, body: Option<Product>)

  /** The fixed addresses the handler puts on the events it sends. */
  const CreatedBy: string := "um@gmail.com"
  const UpdatedBy: string := "outro@gmail.com"
  const DeletedBy: string := "maisum@gmail.com"

  /** The event sent for `product` after a change of kind `eventType`. */
  function ProductEvent(product: Product, eventType: EventType, email: string, requestId: string): (e: Event)
    ensures e.productId == product.id && e.productCode == product.code && e.productPrice == product.price
    ensures e.eventType == eventType && e.email == email && e.requestId == requestId
  {
    Event(requestId, eventType, product.id, product.code, product.price, email)
  }

  /**
   * The entry the relay writes for a sent event files it under the product's
   * code and records the product's id and price.
   */
  lemma SentEventIsLogged(product: Product, eventType: EventType, email: string, requestId: string, timestamp: nat)
    ensures var entry := EventsFetch.CreateEvent(ProductEvent(product, eventType, email, requestId), timestamp);
      && entry.pk == "#product_" + product.code
      && entry.info == EventsFetch.Info(product.id, product.price)
      && entry.eventType == eventType && entry.email == email && entry.requestId == requestId
  {
  }

  /**
   * Routes on the resource and method. Every request on `/products` creates
   * (the method is not looked at). On `/products/{id}`, PUT updates and
   * DELETE deletes; other methods and other resources are bad requests.
   *
   * `invoked` is the event handed to `Lambda.invoke`, whatever became of the
   * call. It is built only after the store change succeeded, and a failed
   * send never undoes that change: after a create it rejects the handler;
   * after an update it turns the reply into 404 'Product not found'; after a
   * delete it turns the reply into 404 with the send's error message.
   */
  method Handler(repo: ProductRepository, req: Request, freshId: string, requestId: string, dispatch: Dispatch)
    returns (out: Outcome<Product>, invoked: Option<Event>)
    requires repo.Valid()
    requires req.resource == "/products" ==> req.body.Some?
    requires req.resource == "/products" ==> freshId !in repo.table
    modifies repo
    ensures repo.Valid()
    ensures out.Reply? && out.statusCode == 400 ==> out.body == Text(BadRequestJson)
    // create
    ensures req.resource == "/products" ==>
      var created := req.body.value.(id := freshId);
      && repo.table == old(repo.table)[freshId := created]
      && invoked == Some(ProductEvent(created, CREATED, CreatedBy, requestId))
      && (dispatch.Delivered? ==> out == Reply(201, Item(created)))
      && (dispatch.Failed? ==> out == Crash(dispatch.message))
    // update
    ensures req.resource == "/products/{id}" && req.httpMethod == "PUT" ==>
      if req.body.None? || req.pathId !in old(repo.table) then
        out == Reply(404, Text(ProductNotFound)) && repo.table == old(repo.table) && invoked.None?
      else
        var updated := req.body.value.(id := req.pathId);
        && repo.table == old(repo.table)[req.pathId := updated]
        && invoked == Some(ProductEvent(updated, UPDATED, UpdatedBy, requestId))
        && (dispatch.Delivered? ==> out == Reply(200, Item(updated)))
        && (dispatch.Failed? ==> out == Reply(404, Text(ProductNotFound)))
    // delete
    ensures req.resource == "/products/{id}" && req.httpMethod == "DELETE" ==>
      if req.pathId !in old(repo.table) then
        out == Reply(404, Text(ProductNotFound)) && repo.table == old(repo.table) && invoked.None?
      else
        var deleted := old(repo.table)[req.pathId];
        && repo.table == old(repo.table) - {req.pathId}
        && invoked == Some(ProductEvent(deleted, DELETED, DeletedBy, requestId))
        && (dispatch.Delivered? ==> out == Reply(200, Item(deleted)))
        && (dispatch.Failed? ==> out == Reply(404, Text(dispatch.message)))
    // anything else
    ensures (|| (req.resource == "/products/{id}" && req.httpMethod != "PUT" && req.httpMethod != "DELETE")
             || (req.resource != "/products" && req.resource != "/products/{id}")) ==>
      out == Reply(400, Text(BadRequestJson)) && repo.table == old(repo.table) && invoked.None?
  {
    invoked := None;
    if req.resource == "/products" {
      var result := repo.CreateProduct(req.body.value, freshId);
      var event := ProductEvent(result, CREATED, CreatedBy, requestId);
      if dispatch.Failed? {
        return Crash(dispatch.message), Some(event);
      }
      return Reply(201, Item(result)), Some(event);
    } else if req.resource == "/products/{id}" {
      var productId := req.pathId;
      if req.httpMethod == "PUT" {
        // A missing body parses to null, and reading its fields throws
        // before the store is called; the handler catches it as not found.
        if req.body.None? {
          return Reply(404, Text(ProductNotFound)), None;
        }
        var r := repo.UpdateProduct(productId, req.body.value);
        if r.Err? {
          return Reply(404, Text(ProductNotFound)), None;
        }
        var event := ProductEvent(r.value, UPDATED, UpdatedBy, requestId);
        if dispatch.Failed? {
          return Reply(404, Text(ProductNotFound)), Some(event);
        }
        return Reply(200, Item(r.value)), Some(event);
      } else if req.httpMethod == "DELETE" {
        var r := repo.DeleteProduct(productId);
        if r.Err? {
          return Reply(404, Text(r.message)), None;
        }
        var event := ProductEvent(r.value, DELETED, DeletedBy, requestId);
        if dispatch.Failed? {
          return Reply(404, Text(dispatch.message)), Some(event);
        }
        return Reply(200, Item(r.value)), Some(event);
      }
    }
    out := Reply(400, Text(BadRequestJson));
  }
}
