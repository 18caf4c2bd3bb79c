/**
 * The order handler: lists, fetches, places and deletes orders, converts
 * stored orders to the client's shape, and publishes an order event after
 * each successful change.
 */
module OrdersHandler {
  import opened Common
  import opened ProductStore
  import opened OrderStore

  /** The parsed body of a POST; `shipping` is `None` when the body has none. */
  datatype OrderRequest = OrderRequest(
    email: string,
    productIds: seq<string>,
    payment: PaymentType,
    shipping: Option<Shipping>)

  /** An order as the client sees it: `pk` and `sk` become `email` and `id`. */
  datatype OrderResponse = OrderResponse(
    email: string,
    id: string,
    createdAt: Option<int>,
    products: seq<OrderProduct>,
    billing: Billing,
    shipping: Shipping)

  datatype OrderEventType = CREATED | DELETE

  datatype OrderEvent = OrderEvent(
    productCodes: seq<string>,
    email: string,
    orderId: string,
    billing: Billing,
    shipping: Shipping,
    requestId: string)

  /** What is published on the order-events topic; `data` stands for the serialised event. */
  datatype Envelope = Envelope(eventType: OrderEventType, data: OrderEvent)

  /**
   * The parts of an API Gateway proxy event the handler looks at: the
   * method, the query-string parameters (`None` when there are none) and the
   * parsed body.
   */
  datatype Request = Request(httpMethod: string, query: Option<map<string, string>>, body: Option<OrderRequest>)

  const SomeProductNotFound: string := "Some product was not found"
  const BadRequest: string := "Bad Request"

  /** The error thrown when `orderRequest.shipping.type` is read from a body without shipping. */
  const ShippingMissing: string := "Cannot read properties of undefined (reading 'type')"

  /** The sum of the prices of the order lines. */
  function Total(lines: seq<OrderProduct>): int
  {
    if lines == [] then 0 else Total(lines[..|lines| - 1]) + lines[|lines| - 1].price
  }

  lemma {:induction false} TotalAppend(a: seq<OrderProduct>, b: seq<OrderProduct>)
    ensures Total(a + b) == Total(a) + Total(b)
  {
    if b != [] {
      TotalAppend(a, b[..|b| - 1]);
      assert (a + b)[..|a + b| - 1] == a + b[..|b| - 1];
    } else {
      assert a + b == a;
    }
  }

  /**
   * The total does not depend on the order of the lines, so it is the same
   * whatever order the batch get returns the products in.
   */
  lemma {:induction false} TotalPermutation(a: seq<OrderProduct>, b: seq<OrderProduct>)
    requires multiset(a) == multiset(b)
    ensures Total(a) == Total(b)
  {
    if a != [] {
      var x := a[|a| - 1];
      var init := a[..|a| - 1];
      assert a == init + [x];
      assert x in multiset(b);
      var j :| 0 <= j < |b| && b[j] == x;
      var rest := b[..j] + b[j + 1..];
      assert b == b[..j] + [x] + b[j + 1..];
      assert multiset(a) == multiset(init) + multiset{x};
      assert multiset(b) == multiset(b[..j]) + multiset{x} + multiset(b[j + 1..]);
      assert multiset(rest) == multiset(b[..j]) + multiset(b[j + 1..]);
      assert multiset(init) == multiset(a) - multiset{x};
      assert multiset(rest) == multiset(b) - multiset{x};
      TotalPermutation(init, rest);
      TotalAppend(b[..j] + [x], b[j + 1..]);
      TotalAppend(b[..j], [x]);
      TotalAppend(b[..j], b[j + 1..]);
      assert Total([x]) == x.price by {
        assert [x][..0] == [];
      }
    }
  }

  /** `lines` holds the code and price of each product, in the same order. */
  ghost predicate SnapshotOf(lines: seq<OrderProduct>, products: seq<Product>)
  {
    |lines| == |products| && forall i :: 0 <= i < |lines| ==> lines[i] == OrderProduct(products[i].code, products[i].price)
  }

  /**
   * `o` is the order built for `req` from `products`: owned by the request's
   * email, with its payment and shipping, one line per product, and the sum
   * of the lines as its total.
   */
  ghost predicate BuiltFrom(o: Order, req: OrderRequest, products: seq<Product>)
  {
    && o.pk == req.email
    && req.shipping == Some(o.shipping)
    && o.billing == Billing(req.payment, Total(o.products))
    && SnapshotOf(o.products, products)
  }

  /**
   * Snapshots the code and price of every product and sums the prices. The
   * order has no id and no creation time yet (the id is modelled as the empty
   * string). Without shipping in the request the build throws.
   */
  method BuildOrder(orderRequest: OrderRequest, products: seq<Product>) returns (r: Result<Order>)
    ensures r.Ok? <==> orderRequest.shipping.Some?
    ensures r.Err? ==> r.message == ShippingMissing
    ensures r.Ok? ==> BuiltFrom(r.value, orderRequest, products) && r.value.sk == "" && r.value.createdAt == None
  {
    var orderProducts: seq<OrderProduct> := [];
    var totalPrice := 0;
    for i := 0 to |products|
      invariant SnapshotOf(orderProducts, products[..i])
      invariant totalPrice == Total(orderProducts)
    {
      ghost var before := orderProducts;
      totalPrice := totalPrice + products[i].price;
      orderProducts := orderProducts + [OrderProduct(products[i].code, products[i].price)];
      assert orderProducts[..|orderProducts| - 1] == before;
    }
    assert products[..|products|] == products;
    if orderRequest.shipping.None? {
      return Err(ShippingMissing);
    }
    r := Ok(Order(orderRequest.email, "", None, orderRequest.shipping.value,
                  Billing(orderRequest.payment, totalPrice), orderProducts));
  }

  /** The stored order a client-shaped order stands for: the renaming undone. */
  function ToOrder(r: OrderResponse): Order
  {
    Order(r.email, r.id, r.createdAt, r.shipping, r.billing, r.products)
  }

  /** The client shape of an order; renaming back gives the order itself. */
  function ToResponse(o: Order): (r: OrderResponse)
    ensures r.email == o.pk && r.id == o.sk
    ensures ToOrder(r) == o
  {
    OrderResponse(o.pk, o.sk, o.createdAt, o.products, o.billing, o.shipping)
  }

  /** Converting is a bijection: every client-shaped order comes from exactly one order. */
  lemma ResponseRoundTrip(r: OrderResponse)
    ensures ToResponse(ToOrder(r)) == r
  {
  }

  /** Copies the order lines and renames `pk`/`sk` to `email`/`id`. */
  method ConvertToOrderResponse(order: Order) returns (r: OrderResponse)
    ensures r == ToResponse(order)
  {
    var orderProducts: seq<OrderProduct> := [];
    for i := 0 to |order.products|
      invariant orderProducts == order.products[..i]
    {
      orderProducts := orderProducts + [OrderProduct(order.products[i].code, order.products[i].price)];
    }
    assert order.products[..|order.products|] == order.products;
    r := OrderResponse(order.pk, order.sk, order.createdAt, orderProducts,
                       Billing(order.billing.payment, order.billing.totalPrice),
                       Shipping(order.shipping.shippingType, order.shipping.carrier));
  }

  /** `orders.map(convertToOrderResponse)`. */
  method ConvertAll(orders: seq<Order>) returns (rs: seq<OrderResponse>)
    ensures |rs| == |orders|
    ensures forall i :: 0 <= i < |orders| ==> rs[i] == ToResponse(orders[i])
  {
    rs := [];
    for i := 0 to |orders|
      invariant |rs| == i
      invariant forall j :: 0 <= j < i ==> rs[j] == ToResponse(orders[j])
    {
      var r := ConvertToOrderResponse(orders[i]);
      rs := rs + [r];
    }
  }

  /**
   * `e` describes `order`: its product codes in order, its owner and id, its
   * billing and shipping, and the invocation's request id.
   */
  ghost predicate IsOrderEvent(e: OrderEvent, order: Order, requestId: string)
  {
    && |e.productCodes| == |order.products|
    && (forall i :: 0 <= i < |e.productCodes| ==> e.productCodes[i] == order.products[i].code)
    && e.email == order.pk && e.orderId == order.sk
    && e.billing == order.billing && e.shipping == order.shipping
    && e.requestId == requestId
  }

  /** The envelope published for a change of kind `eventType` to `order`. */
  method OrderEnvelope(order: Order, eventType: OrderEventType, requestId: string) returns (env: Envelope)
    ensures env.eventType == eventType
    ensures IsOrderEvent(env.data, order, requestId)
  {
    var productCodes: seq<string> := [];
    for i := 0 to |order.products|
      invariant |productCodes| == i
      invariant forall j :: 0 <= j < i ==> productCodes[j] == order.products[j].code
    {
      productCodes := productCodes + [order.products[i].code];
    }
    var orderEvent := OrderEvent(productCodes, order.pk, order.sk, order.billing, order.shipping, requestId);
    env := Envelope(eventType, orderEvent);
  }

  /** A query-string parameter that is present and not empty (JavaScript truthiness). */
  predicate Given(q: map<string, string>, name: string)
  {
    name in q && q[name] != ""
  }

  /**
   * `rs` is the client shape of every order of `t` (of the owner `owner`
   * when one is given), each once, and nothing else.
   */
  ghost predicate ListsOrders(rs: seq<OrderResponse>, t: map<OrderKey, Order>, owner: Option<string>)
  {
    && (forall r :: r in rs ==> (r.email, r.id) in t && ToResponse(t[(r.email, r.id)]) == r && (owner.Some? ==> r.email == owner.value))
    && (forall k :: k in t && (owner.None? || k.0 == owner.value) ==> ToResponse(t[k]) in rs)
    && Distinct(rs)
  }

  /** The client shapes of distinct stored orders, in the same order, are distinct. */
  lemma ConvertedDistinct(orders: seq<Order>, rs: seq<OrderResponse>)
    requires Distinct(orders) && |rs| == |orders|
    requires forall i :: 0 <= i < |orders| ==> rs[i] == ToResponse(orders[i])
    ensures Distinct(rs)
  {
  }

  /**
   * Routes on the method. GET lists all orders, an owner's orders, or one
   * order, depending on the query; POST places an order only if the batch
   * get is accepted and finds every requested product; DELETE removes one
   * order. Anything else, and a GET whose query has no email, is a bad
   * request.
   *
   * The envelope `sent` is the one handed to SNS, whatever the outcome of
   * the publish. It is built only after the store change succeeded, and a
   * failed publish never undoes that change: it rejects the handler after a
   * POST and turns the reply into 404 after a DELETE. POST calls the stores
   * outside any `try`, so a store error rejects the handler.
   */
  method Handler(
    orders: OrdersRepository, products: ProductRepository, req: Request,
    freshId: string, now: int, requestId: string, publish: Dispatch)
    returns (out: Outcome<OrderResponse>, sent: Option<Envelope>)
    requires orders.Valid() && products.Valid()
    requires req.httpMethod == "POST" ==> req.body.Some? && |req.body.value.productIds| >= 1
    requires req.httpMethod == "POST" ==> (req.body.value.email, freshId) !in orders.table
    requires req.httpMethod == "DELETE" ==>
      req.query.Some? && "email" in req.query.value && "orderId" in req.query.value
    modifies orders
    ensures orders.Valid()
    ensures out.Reply? && out.body.Item? ==> out.body.item.createdAt.Some?
    ensures out.Reply? && out.body.Items? ==> forall r :: r in out.body.items ==> r.createdAt.Some?
    // GET
    ensures req.httpMethod == "GET" ==> orders.table == old(orders.table) && sent.None?
    ensures req.httpMethod == "GET" && req.query.None? ==>
      out.Reply? && out.statusCode == 200 && out.body.Items? && ListsOrders(out.body.items, orders.table, None)
    ensures req.httpMethod == "GET" && req.query.Some? && Given(req.query.value, "email") ==>
      var email := req.query.value["email"];
      if !Given(req.query.value, "orderId") then
        out.Reply? && out.statusCode == 200 && out.body.Items? && ListsOrders(out.body.items, orders.table, Some(email))
      else
        var key := (email, req.query.value["orderId"]);
        if key in orders.table then out == Reply(200, Item(ToResponse(orders.table[key])))
        else out == Reply(404, Text(OrderNotFound))
    ensures req.httpMethod == "GET" && req.query.Some? && !Given(req.query.value, "email") ==>
      out == Reply(400, Text(BadRequest))
    // POST
    ensures req.httpMethod == "POST" ==>
      var body := req.body.value;
      var key := (body.email, freshId);
      if !BatchGetAccepts(body.productIds) then
        out == Crash(BatchGetError(body.productIds))
        && orders.table == old(orders.table) && sent.None?
      else if !AllResolvable(products.table, body.productIds) then
        out == Reply(404, Text(SomeProductNotFound)) && orders.table == old(orders.table) && sent.None?
      else if body.shipping.None? then
        out == Crash(ShippingMissing) && orders.table == old(orders.table) && sent.None?
      else if body.email == "" || freshId == "" then
        out == Crash(KeyError(body.email, freshId, "")) && orders.table == old(orders.table) && sent.None?
      else
        && key in orders.table
        && orders.table == old(orders.table)[key := orders.table[key]]
        && BuiltFrom(orders.table[key], body, Resolve(products.table, body.productIds))
        && orders.table[key].sk == freshId && orders.table[key].createdAt == Some(now)
        && sent.Some? && sent.value.eventType == CREATED
        && IsOrderEvent(sent.value.data, orders.table[key], requestId)
        && (publish.Delivered? ==> out == Reply(201, Item(ToResponse(orders.table[key]))))
        && (publish.Failed? ==> out == Crash(publish.message))
    // DELETE
    ensures req.httpMethod == "DELETE" ==>
      var key := (req.query.value["email"], req.query.value["orderId"]);
      if key.0 == "" || key.1 == "" then
        out == Reply(404, Text(KeyError(key.0, key.1, ""))) && orders.table == old(orders.table) && sent.None?
      else if key !in old(orders.table) then
        out == Reply(404, Text(OrderNotFound)) && orders.table == old(orders.table) && sent.None?
      else
        && orders.table == old(orders.table) - {key}
        && sent.Some? && sent.value.eventType == DELETE
        && IsOrderEvent(sent.value.data, old(orders.table)[key], requestId)
        && (publish.Delivered? ==> out == Reply(200, Item(ToResponse(old(orders.table)[key]))))
        && (publish.Failed? ==> out == Reply(404, Text(publish.message)))
    // anything else
    ensures req.httpMethod !in {"GET", "POST", "DELETE"} ==>
      out == Reply(400, Text(BadRequest)) && orders.table == old(orders.table) && sent.None?
  {
    sent := None;
    if req.httpMethod == "GET" {
      if req.query.Some? {
        var q := req.query.value;
        if Given(q, "email") {
          if Given(q, "orderId") {
            var r := orders.GetOrderByIdEmail(q["email"], q["orderId"]);
            match r
            case Ok(order) =>
              var response := ConvertToOrderResponse(order);
              return Reply(200, Item(response)), None;
            case Err(message) =>
              return Reply(404, Text(message)), None;
          } else {
            var found := orders.GetOrderByEmail(q["email"]);
            var rs := ConvertAll(found);
            ConvertedDistinct(found, rs);
            return Reply(200, Items(rs)), None;
          }
        }
      } else {
        var all := orders.GetAllOrders();
        var rs := ConvertAll(all);
        ConvertedDistinct(all, rs);
        return Reply(200, Items(rs)), None;
      }
    }
    if req.httpMethod == "POST" {
      var orderRequest := req.body.value;
      var batch := products.GetProductsByIds(orderRequest.productIds);
      if batch.Err? {
        return Crash(batch.message), None;
      }
      var found := batch.value;
      ResolveAllFound(products.table, orderRequest.productIds);
      if |found| == |orderRequest.productIds| {
        var built := BuildOrder(orderRequest, found);
        if built.Err? {
          return Crash(built.message), None;
        }
        var created := orders.CreateOrder(built.value, freshId, now);
        if created.Err? {
          return Crash(created.message), None;
        }
        var orderCreated := created.value;
        var envelope := OrderEnvelope(orderCreated, CREATED, requestId);
        if publish.Failed? {
          return Crash(publish.message), Some(envelope);
        }
        var response := ConvertToOrderResponse(orderCreated);
        return Reply(201, Item(response)), Some(envelope);
      } else {
        return Reply(404, Text(SomeProductNotFound)), None;
      }
    }
    if req.httpMethod == "DELETE" {
      var q := req.query.value;
      var r := orders.DeleteOrder(q["email"], q["orderId"]);
      if r.Err? {
        return Reply(404, Text(r.message)), None;
      }
      var envelope := OrderEnvelope(r.value, DELETE, requestId);
      if publish.Failed? {
        return Reply(404, Text(publish.message)), Some(envelope);
      }
      var response := ConvertToOrderResponse(r.value);
      return Reply(200, Item(response)), Some(envelope);
    }
    out := Reply(400, Text(BadRequest));
  }
}
