/** The product controller: five handlers forwarding to `/products` upstream.
    None of them reads the query string. */
module Products {
  import opened Json
  import opened Http
  import opened QueryString
  import opened Forwarding

  // The forwarding table of the product controller.
  const GetAllProductsRule := Rule(Get, "/products", None, [], false, false)
  const GetProductByIdRule := Rule(Get, "/products", Some("id"), [], false, false)
  const AddProductRule := Rule(Post, "/products", None, [], true, true)
  const UpdateProductRule := Rule(Put, "/products", Some("id"), [], true, false)
  const DeleteProductRule := Rule(Delete, "/products", Some("id"), [], false, false)

  const ProductRules := [GetAllProductsRule, GetProductByIdRule, AddProductRule, UpdateProductRule, DeleteProductRule]

  /** GET /products */
  function GetAllProducts(req: Request, o: Outcome): Exchange
  {
    Exchange(Some(UpstreamRequest(Get, BASE_URL + "/products", None)), Relay(o, false))
  }

  /** GET /products/:id */
  function GetProductById(req: Request, o: Outcome): Exchange
  {
    Exchange(Some(UpstreamRequest(Get, BASE_URL + "/products/" + PathParam(req, "id"), None)), Relay(o, false))
  }

  /** POST /products */
  function AddProduct(req: Request, o: Outcome): Exchange
  {
    Exchange(Some(UpstreamRequest(Post, BASE_URL + "/products", Some(req.body))), Relay(o, true))
  }

  /** PUT /products/:id */
  function UpdateProduct(req: Request, o: Outcome): Exchange
  {
    Exchange(Some(UpstreamRequest(Put, BASE_URL + "/products/" + PathParam(req, "id"), Some(req.body))), Relay(o, false))
  }

  /** DELETE /products/:id */
  function DeleteProduct(req: Request, o: Outcome): Exchange
  {
    Exchange(Some(UpstreamRequest(Delete, BASE_URL + "/products/" + PathParam(req, "id"), None)), Relay(o, false))
  }

  /** The product handlers are the forwarding table's rows: same verb, same
      URL, same body, same relay. */
  lemma ProductHandlersFollowTable(req: Request, o: Outcome)
    ensures GetAllProducts(req, o) == Forward(GetAllProductsRule, req, o)
    ensures GetProductById(req, o) == Forward(GetProductByIdRule, req, o)
    ensures AddProduct(req, o) == Forward(AddProductRule, req, o)
    ensures UpdateProduct(req, o) == Forward(UpdateProductRule, req, o)
    ensures DeleteProduct(req, o) == Forward(DeleteProductRule, req, o)
  {
    assert Suffix(QueryParams([], req.query)) == "";
    var byId := BASE_URL + "/products/" + PathParam(req, "id");
    assert byId == BASE_URL + "/products" + ("/" + PathParam(req, "id")) + "";
    assert Target(GetProductByIdRule, req) == byId;
    assert Target(UpdateProductRule, req) == byId;
    assert Target(DeleteProductRule, req) == byId;
    assert Target(GetAllProductsRule, req) == BASE_URL + "/products" + "" + "" == BASE_URL + "/products";
    assert Target(AddProductRule, req) == BASE_URL + "/products";
  }

  /** getAllProducts always targets the bare collection URL, with no `?`:
      whatever query the caller sends is dropped, so any two requests are
      forwarded identically. */
  lemma AllProductsIgnoresQuery(r1: Request, r2: Request, o: Outcome)
    ensures GetAllProducts(r1, o).sent.value.url == BASE_URL + "/products"
    ensures '?' !in GetAllProducts(r1, o).sent.value.url
    ensures GetAllProducts(r1, o) == GetAllProducts(r2, o)
  {
    BaseUrlHasNoQuery();
  }

  /** The three by-id handlers target `/products/{id}`; only PUT carries a
      body, and it is `req.body` unchanged. addProduct posts `req.body`
      unchanged to the collection URL. */
  lemma ProductTargets(req: Request, o: Outcome)
    ensures forall rule :: rule in [GetProductByIdRule, UpdateProductRule, DeleteProductRule] ==>
      var sent := Forward(rule, req, o).sent.value;
      && sent.url == BASE_URL + "/products/" + PathParam(req, "id")
      && (sent.body.Some? <==> sent.verb == Put)
      && (sent.body.Some? ==> sent.body.value == req.body)
    ensures AddProduct(req, o).sent == Some(UpstreamRequest(Post, BASE_URL + "/products", Some(req.body)))
  {
    ProductHandlersFollowTable(req, o);
  }

  /** Each product handler makes exactly one upstream call, with the verb its
      route names. */
  lemma ProductVerbs(req: Request, o: Outcome)
    ensures GetAllProducts(req, o).sent.Some? && GetAllProducts(req, o).sent.value.verb == Get
    ensures GetProductById(req, o).sent.Some? && GetProductById(req, o).sent.value.verb == Get
    ensures AddProduct(req, o).sent.Some? && AddProduct(req, o).sent.value.verb == Post
    ensures UpdateProduct(req, o).sent.Some? && UpdateProduct(req, o).sent.value.verb == Put
    ensures DeleteProduct(req, o).sent.Some? && DeleteProduct(req, o).sent.value.verb == Delete
  {
    ProductHandlersFollowTable(req, o);
  }

  /** addProduct answers a success with 201 and every other product handler
      with 200, each with the upstream data unchanged; every failure is a 500
      carrying the failure's message. */
  lemma ProductResponses(req: Request, o: Outcome)
    ensures forall rule :: rule in ProductRules ==>
      Forward(rule, req, o).response ==
        match o
        case Success(_, data) => Response(if rule == AddProductRule then 201 else 200, data)
        case Failure(message) => Response(500, ErrorBody(message))
  {
  }
}
