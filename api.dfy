/**
 * The four API objects. Each call builds the request it hands to the client;
 * every builder is proved to produce a request that the reference decoder
 * `Route` reads back as exactly that call with exactly those arguments.
 */
module AuthApi {
  import opened Wrappers
  import opened Types
  import opened Http
  import opened Routes

  /** `authAPI.login`: POST the credentials to /auth/login. */
  function Login(credentials: LoginCredentials): (r: Request)
    ensures r.verb == POST && r.data == CredentialsBody(credentials)
    ensures Route(r) == Some(Routes.Login(credentials))
  {
    Request(POST, LoginPath, CredentialsBody(credentials))
  }

  /** `authAPI.getCurrentUser`: GET /auth/me with no body. */
  function GetCurrentUser(): (r: Request)
    ensures r.verb == GET && r.data == NoBody
    ensures Route(r) == Some(Routes.GetCurrentUser)
  {
    Request(GET, CurrentUserPath, NoBody)
  }
}

module ProductsApi {
  import opened Wrappers
  import opened Types
  import opened Http
  import opened Routes

  /** `productsAPI.getAll`: GET one page of products; page 0 of size 10 unless given. */
  function GetAll(page: int := 0, size: int := 10): (r: Request)
    ensures r.verb == GET && r.data == NoBody
    ensures Route(r) == Some(ListProducts(page, size))
  {
    ParseListPathOf(Products, page, size);
    Request(GET, ListPath(Products, page, size), NoBody)
  }

  /** `productsAPI.getById`: GET /products/<id>. */
  function GetById(id: int): (r: Request)
    ensures r.verb == GET && r.data == NoBody
    ensures Route(r) == Some(GetProduct(id))
  {
    ItemPathIsNoListPath(Products, id);
    ParseItemPathOf(Products, id);
    Request(GET, ItemPath(Products, id), NoBody)
  }

  /** `productsAPI.create`: POST the DTO to the bare collection path. */
  function Create(product: CreateProductDTO): (r: Request)
    ensures r.verb == POST && r.data == ProductBody(product)
    ensures Route(r) == Some(CreateProduct(product))
  {
    Request(POST, CollectionPath(Products), ProductBody(product))
  }

  /** `productsAPI.update`: PUT a partial DTO to /products/<id>. */
  function Update(id: int, product: ProductPatch): (r: Request)
    ensures r.verb == PUT && r.data == PatchBody(product)
    ensures Route(r) == Some(UpdateProduct(id, product))
  {
    ParseItemPathOf(Products, id);
    Request(PUT, ItemPath(Products, id), PatchBody(product))
  }

  /** `productsAPI.delete`: DELETE /products/<id>. */
  function Delete(id: int): (r: Request)
    ensures r.verb == DELETE && r.data == NoBody
    ensures Route(r) == Some(DeleteProduct(id))
  {
    ParseItemPathOf(Products, id);
    Request(DELETE, ItemPath(Products, id), NoBody)
  }
}

module OrdersApi {
  import opened Wrappers
  import opened Types
  import opened Http
  import opened Routes

  /** `ordersAPI.getAll`: GET one page of orders; page 0 of size 10 unless given. */
  function GetAll(page: int := 0, size: int := 10): (r: Request)
    ensures r.verb == GET && r.data == NoBody
    ensures Route(r) == Some(ListOrders(page, size))
  {
    ParseListPathOf(Orders, page, size);
    Request(GET, ListPath(Orders, page, size), NoBody)
  }

  /** `ordersAPI.getById`: GET /orders/<id>. */
  function GetById(id: int): (r: Request)
    ensures r.verb == GET && r.data == NoBody
    ensures Route(r) == Some(GetOrder(id))
  {
    ItemPathIsNoListPath(Orders, id);
    ParseItemPathOf(Orders, id);
    Request(GET, ItemPath(Orders, id), NoBody)
  }

  /** `ordersAPI.create`: POST the order request to the bare collection path. */
  function Create(order: CreateOrderDTO): (r: Request)
    ensures r.verb == POST && r.data == OrderBody(order)
    ensures Route(r) == Some(CreateOrder(order))
  {
    Request(POST, CollectionPath(Orders), OrderBody(order))
  }
}

module TransactionsApi {
  import opened Wrappers
  import opened Types
  import opened Http
  import opened Routes

  /** `transactionsAPI.getAll`: GET one page of transactions; page 0 of size 10 unless given. */
  function GetAll(page: int := 0, size: int := 10): (r: Request)
    ensures r.verb == GET && r.data == NoBody
    ensures Route(r) == Some(ListTransactions(page, size))
  {
    ParseListPathOf(Transactions, page, size);
    Request(GET, ListPath(Transactions, page, size), NoBody)
  }

  /** `transactionsAPI.create`: POST the new transaction to the bare collection path. */
  function Create(transaction: NewTransaction): (r: Request)
    ensures r.verb == POST && r.data == TransactionBody(transaction)
    ensures Route(r) == Some(CreateTransaction(transaction))
  {
    Request(POST, CollectionPath(Transactions), TransactionBody(transaction))
  }
}

/** All calls of the four API objects, dispatched by operation. */
module Endpoints {
  import opened Wrappers
  import opened Decimal
  import opened Http
  import opened Routes
  import AuthApi
  import ProductsApi
  import OrdersApi
  import TransactionsApi

  /** The request the API object builds for an operation. */
  function Endpoint(op: Operation): (r: Request)
    ensures Route(r) == Some(op)
  {
    match op
    case Login(credentials) => AuthApi.Login(credentials)
    case GetCurrentUser => AuthApi.GetCurrentUser()
    case ListProducts(page, size) => ProductsApi.GetAll(page, size)
    case GetProduct(id) => ProductsApi.GetById(id)
    case CreateProduct(product) => ProductsApi.Create(product)
    case UpdateProduct(id, patch) => ProductsApi.Update(id, patch)
    case DeleteProduct(id) => ProductsApi.Delete(id)
    case ListOrders(page, size) => OrdersApi.GetAll(page, size)
    case GetOrder(id) => OrdersApi.GetById(id)
    case CreateOrder(order) => OrdersApi.Create(order)
    case ListTransactions(page, size) => TransactionsApi.GetAll(page, size)
    case CreateTransaction(transaction) => TransactionsApi.Create(transaction)
  }

  /**
   * Every request the reference decoder `Route` accepts is the one the API
   * builds for the operation it decodes to.
   */
  lemma EndpointOfRoute(req: Request, op: Operation)
    requires Route(req) == Some(op)
    ensures Endpoint(op) == req
  {
    match req.verb
    case POST => EndpointOfPost(req, op);
    case GET =>
      if req.url != CurrentUserPath {
        if ParseListPath(req.url).Some? {
          EndpointOfListGet(req, op);
        } else {
          EndpointOfItemGet(req, op);
        }
      }
    case PUT => EndpointOfItemChange(req, op);
    case DELETE => EndpointOfItemChange(req, op);
  }

  lemma EndpointOfPost(req: Request, op: Operation)
    requires req.verb == POST && Route(req) == Some(op)
    ensures Endpoint(op) == req
  {
    match req.data
    case CredentialsBody(credentials) => assert op == Login(credentials);
    case ProductBody(product) => assert op == CreateProduct(product);
    case OrderBody(order) => assert op == CreateOrder(order);
    case TransactionBody(transaction) => assert op == CreateTransaction(transaction);
    case _ => assert false;
  }

  lemma EndpointOfListGet(req: Request, op: Operation)
    requires req.verb == GET && req.url != CurrentUserPath && ParseListPath(req.url).Some?
    requires Route(req) == Some(op)
    ensures Endpoint(op) == req
  {
    var (c, page, size) := ParseListPath(req.url).value;
    ListPathOfParse(req.url, c, page, size);
  }

  lemma EndpointOfItemGet(req: Request, op: Operation)
    requires req.verb == GET && req.url != CurrentUserPath && ParseListPath(req.url).None?
    requires Route(req) == Some(op)
    ensures Endpoint(op) == req
  {
    var (c, id) := ParseItemPath(req.url).value;
    ItemPathOfParse(req.url, c, id);
  }

  lemma EndpointOfItemChange(req: Request, op: Operation)
    requires req.verb == PUT || req.verb == DELETE
    requires Route(req) == Some(op)
    ensures Endpoint(op) == req
  {
    var (c, id) := ParseItemPath(req.url).value;
    ItemPathOfParse(req.url, c, id);
  }

  /** Distinct operations never share a request: the mapping is one-to-one. */
  lemma EndpointInjective(op1: Operation, op2: Operation)
    requires Endpoint(op1) == Endpoint(op2)
    ensures op1 == op2
  {
  }

  lemma DefaultNumerals()
    ensures IntToString(0) == "0" && IntToString(10) == "10"
  {
  }

  /** The list calls default to page 0 of size 10, written into the query string. */
  lemma ListDefaults()
    ensures ProductsApi.GetAll().url == "/products?page=0&size=10"
    ensures OrdersApi.GetAll().url == "/orders?page=0&size=10"
    ensures TransactionsApi.GetAll().url == "/transactions?page=0&size=10"
  {
    ProductsDefaultPage();
    OrdersDefaultPage();
    TransactionsDefaultPage();
  }

  lemma ProductsDefaultPage()
    ensures ListPath(Products, 0, 10) == "/products?page=0&size=10"
  {
    DefaultNumerals();
  }

  lemma OrdersDefaultPage()
    ensures ListPath(Orders, 0, 10) == "/orders?page=0&size=10"
  {
    DefaultNumerals();
  }

  lemma TransactionsDefaultPage()
    ensures ListPath(Transactions, 0, 10) == "/transactions?page=0&size=10"
  {
    DefaultNumerals();
  }

  /** An explicit page and size are written into the query string as given. */
  lemma ExplicitPage()
    ensures ProductsApi.GetAll(1, 20).url == "/products?page=1&size=20"
  {
    ExplicitPagePath();
  }

  lemma ExplicitPagePath()
    ensures ListPath(Products, 1, 20) == "/products?page=1&size=20"
  {
    ExplicitNumerals();
  }

  lemma ExplicitNumerals()
    ensures IntToString(1) == "1" && IntToString(20) == "20"
  {
    assert NatToString(2) == "2";
  }
}
