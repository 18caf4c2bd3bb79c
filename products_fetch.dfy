/** The read-only product handler: lists the catalogue and fetches one product. */
module ProductsFetch {
  import opened Common
  import opened ProductStore

  /** The parts of an API Gateway proxy event the handler looks at. */
  datatype Request = Request(resource: string, httpMethod: string, pathId: string)

  /**
   * Routes on the resource: GET `/products` lists the catalogue,
   * `/products/{id}` (whatever the method) fetches one product, and anything
   * else is a bad request. The handler only reads the store.
   */
  method Handler(repo: ProductRepository, req: Request) returns (out: Outcome<Product>)
    requires repo.Valid()
    ensures req.resource == "/products" && req.httpMethod == "GET" ==>
      out.Reply? && out.statusCode == 200 && out.body.Items? && ListsAll(out.body.items, repo.table)
    ensures req.resource == "/products/{id}" && req.pathId in repo.table ==>
      out == Reply(200, Item(repo.table[req.pathId]))
    ensures req.resource == "/products/{id}" && req.pathId !in repo.table ==>
      out == Reply(404, Text(ProductNotFound))
    ensures (|| (req.resource == "/products" && req.httpMethod != "GET")
             || (req.resource != "/products" && req.resource != "/products/{id}")) ==>
      out == Reply(400, Text(BadRequestJson))
  {
    if req.resource == "/products" {
      if req.httpMethod == "GET" {
        var products := repo.GetAllProducts();
        return Reply(200, Items(products));
      }
    } else if req.resource == "/products/{id}" {
      var r := repo.GetProductById(req.pathId);
      match r
      case Ok(product) => return Reply(200, Item(product));
      case Err(message) => return Reply(404, Text(message));
    }
    out := Reply(400, Text(BadRequestJson));
  }
}
