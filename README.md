# Inventory management client access layer, modelled in Dafny

This project models the client access layer of an inventory-management web
front end (`src/services/api.ts`) and the domain types it exchanges
(`src/types/index.ts`). The layer has four parts:

- **A shared HTTP client.** It has a base URL, taken from an environment override or else
  `http://localhost:8080/api`, and a default `Content-Type: application/json` header.
- **A request interceptor.** When the browser's token store holds a non-empty token, it stamps every
  outgoing request with `Authorization: Bearer <token>`.
- **A response interceptor.** It classifies every failed call with a fixed precedence:
  - exactly 401: clears the token, goes to `/login` and shows "Session expired. Please login again."
  - 500 or above: shows "Server error. Please try again later."
  - a non-empty body `message`: shows that message as it is.
  - anything else: shows "An unexpected error occurred."

  In every case it rejects again with the original error.
- **Four API objects.** `authAPI`, `productsAPI`, `ordersAPI` and `transactionsAPI` each turn a call
  into a verb, a path and a body. The list calls default to page 0 of size 10 and put both values
  in the query string.

Files and modules:

- `wrappers.dfy` (`Wrappers`): `Option`, and JavaScript truthiness of a string that may be missing.
- `decimal.dfy` (`Decimal`): how a template literal renders an integer (`${page}`). It also has the
  canonical parser that inverts this rendering, with both round trips proved.
- `types.dfy` (`Types`): the entities and DTOs as datatypes. The string unions become enumerations,
  each with its wire literal and a parser for it. The lemmas show that each DTO is exactly its
  entity minus the server-assigned fields.
- `http.dfy` (`Http`): the request, the configuration the interceptors see, the base URL, the default
  headers, and the error a failed call carries.
- `routes.dfy` (`Routes`): the client's URL scheme. It writes an operation as a path. `Route` is
  this model's reference decoder: it reads a request written in that scheme strictly back into the
  operation it names.
- `api.dfy` (`AuthApi`, `ProductsApi`, `OrdersApi`, `TransactionsApi`, `Endpoints`): the endpoint
  builders. Each one is proved to build a request that `Route` maps back to exactly that call. The
  converse is proved too, so the mapping from operations to requests is one-to-one.
- `session.dfy` (`Interceptors`): stamping, classification and the session state after a failure.
  - The class `ApiClient` holds the stored token, the page location and the toast log as fields.
  - Its interceptor methods update those fields.
  - `Call` runs one API call through both interceptors.
  - Lemmas cover runs of failed calls.

The network, `localStorage`, `window.location` and `toast` are not modelled as such. The
transport's outcome is a parameter of `ApiClient.Call`. The token, the location and the toasts are
fields of `ApiClient`. The environment override of the base URL is a parameter of the constructor.

Two behaviours of the code that are easy to miss:

- The body message is read from the response, as `error.response?.data?.message` does. An error
  with no response therefore always shows "An unexpected error occurred." It never shows a message.
- `authAPI.login` only returns the server's answer. Storing the returned token is left to its
  caller, so nothing in this model sets a token after construction.

## Model

| member | source | states |
|---|---|---|
| Decimal.NatToString | src/services/api.ts:63 | the numeral of a natural number has only digits and no leading zero, and starts with '0' exactly when the number is 0 |
| Decimal.IntToString | src/services/api.ts:63 | the numeral of an integer is non-empty, has only digits and '-', and starts with '-' exactly when the number is negative |
| Decimal.ParseIntToString | src/services/api.ts:63 | parsing the rendered page or size gives back the same integer |
| Decimal.IntToStringOfParse | src/services/api.ts:63 | every numeral the parser accepts is the rendering of the number it denotes, so each number has exactly one numeral |
| Types.ParseRole | src/types/index.ts:8 | a role on the wire is exactly "ADMIN" or "USER": the parser accepts a string iff it is the name of some role, and then returns that role |
| Types.ParseOrderStatus | src/types/index.ts:51 | an order status is exactly one of the five literals PENDING, PROCESSING, SHIPPED, DELIVERED, CANCELLED |
| Types.ParseTransactionType | src/types/index.ts:81 | a transaction type is exactly one of STOCK_IN, STOCK_OUT, ADJUSTMENT |
| Types.ProductSplitsIntoDraft | src/types/index.ts:19-42 | a product is fully recovered from its create DTO plus id, createdAt and updatedAt, so the DTO loses nothing else |
| Types.DraftOfPersisted | src/types/index.ts:19-42 | the DTO of a stored product is the DTO it was created from, so the DTO has no field of its own |
| Types.Restrict | src/services/api.ts:77 | an update body restricted to chosen fields agrees with the full DTO on every field it carries |
| Types.FieldsOfRestrict | src/services/api.ts:77 | an update body restricted to a set of fields carries exactly that set of fields |
| Types.PatchIsRestriction | src/services/api.ts:77 | every `Partial<CreateProductDTO>` is some full DTO restricted to the fields it carries |
| Types.Lines | src/types/index.ts:58-74 | the request lines of order items are as many as the items, and each carries exactly the item's product id and quantity |
| Types.OrderSplitsIntoDraft | src/types/index.ts:45-74 | an Order is rebuilt exactly from its CreateOrderDTO plus id, orderNumber, orderDate, status, totalAmount, createdAt, updatedAt and, per item, id, productName, unitPrice and totalPrice: the request loses nothing else |
| Types.DraftOfPlaced | src/types/index.ts:45-74 | the CreateOrderDTO survives the round trip through a placed Order, so the request has no field the order lacks |
| Types.TransactionSplitsIntoDraft | src/types/index.ts:77-86 | a transaction is fully recovered from its create body plus id and createdAt |
| Types.DraftOfRecorded | src/services/api.ts:110 | the create body of a recorded transaction is the body it was created from: exactly id and createdAt are omitted |
| Http.BaseUrl | src/services/api.ts:5 | the base URL is the environment override when that is set and non-empty, else "http://localhost:8080/api"; never empty |
| Http.Prepare | src/services/api.ts:8-13 | the client's configuration keeps the request and base URL and has exactly the header Content-Type: application/json |
| Routes.ListPath | src/services/api.ts:63 | a list path starts with the collection path and "?", so page and size travel in the query string; its exact format is pinned down by Routes.ParseListPathOf and Routes.ListPathOfParse |
| Routes.ListPathOneSegment | src/services/api.ts:63 | page and size are never path segments: after its leading "/" a list path has no other "/" |
| Routes.ItemPath | src/services/api.ts:68 | an item path is "/", the collection name, "/" and the id's numeral, with no query string; its exact format is pinned down by Routes.ParseItemPathOf and Routes.ItemPathOfParse |
| Routes.ParseListPathOf | src/services/api.ts:62-63 | a list path "/<collection>?page=<p>&size=<s>" reads back as exactly that collection, page and size |
| Routes.ListPathOfParse | src/services/api.ts:62-63 | any path that reads as a list query is the list path of what it reads as |
| Routes.ParseItemPathOf | src/services/api.ts:67-69 | an item path "/<collection>/<id>" reads back as exactly that collection and id |
| Routes.ItemPathOfParse | src/services/api.ts:67-69 | any path that reads as an item path is the item path of what it reads as |
| Routes.ItemPathIsNoListPath | src/services/api.ts:67-69 | an item path never reads as a list query |
| AuthApi.Login | src/services/api.ts:50-53 | login is POST with the credentials as body, routed to exactly that login |
| AuthApi.GetCurrentUser | src/services/api.ts:55-58 | current user is GET with no body, routed to the current-user operation |
| ProductsApi.GetAll | src/services/api.ts:62-65 | listing products is GET with no body and routes to the product list with exactly the given page and size (default 0 and 10) |
| ProductsApi.GetById | src/services/api.ts:67-70 | fetching a product is GET with no body, routed to that product id |
| ProductsApi.Create | src/services/api.ts:72-75 | creating a product is POST of the DTO to the bare collection, routed to a create with that DTO |
| ProductsApi.Update | src/services/api.ts:77-80 | updating is PUT of the partial DTO, routed to an update of that id with that body |
| ProductsApi.Delete | src/services/api.ts:82-84 | deleting is DELETE with no body, routed to the deletion of that id |
| OrdersApi.GetAll | src/services/api.ts:88-91 | listing orders is GET with no body and routes to the order list with exactly the given page and size |
| OrdersApi.GetById | src/services/api.ts:93-96 | fetching an order is GET with no body, routed to that order id |
| OrdersApi.Create | src/services/api.ts:98-101 | creating an order is POST of the order request to the bare collection, routed to a create with that request |
| TransactionsApi.GetAll | src/services/api.ts:105-108 | listing transactions is GET with no body and routes to the transaction list with exactly the given page and size |
| TransactionsApi.Create | src/services/api.ts:110-113 | recording a transaction is POST of the body without id and createdAt, routed to a create with that body |
| Endpoints.Endpoint | src/services/api.ts:49-114 | the request built for any operation routes back to exactly that operation |
| Endpoints.EndpointOfRoute | src/services/api.ts:49-114 | every request that the reference decoder `Route` maps to an operation is the request the API builds for that operation |
| Endpoints.EndpointInjective | src/services/api.ts:49-114 | two different operations never produce the same request |
| Endpoints.ListDefaults | src/services/api.ts:62-106 | with no arguments the three list calls request "/products?page=0&size=10", "/orders?page=0&size=10" and "/transactions?page=0&size=10" |
| Endpoints.ExplicitPage | src/services/api.ts:62-63 | listing products with page 1 and size 20 requests "/products?page=1&size=20" |
| Interceptors.Stamped | src/services/api.ts:17-23 | with a non-empty token, the headers gain Authorization = "Bearer " + token and every other header is unchanged; with none or an empty one, the configuration is returned as it is |
| Interceptors.BearerTokenOfStamped | src/services/api.ts:18-20 | `BearerToken`, which reads the client's `Authorization: Bearer <token>` header, gets back from a stamped request exactly the stored token, and no token when none was stored |
| Interceptors.Classify | src/services/api.ts:33-43 | a failure is Unauthorized iff its status is exactly 401, a server error iff its status is 500 or more, an API error iff neither and the body message is non-empty (carrying that message), and unknown otherwise, including when there is no response |
| Interceptors.Notice | src/services/api.ts:36-42 | an API error shows the server's own message; otherwise a 401 shows "Session expired. Please login again.", a server error "Server error. Please try again later." and any other failure "An unexpected error occurred."; the three fixed texts are distinct, so each one tells its kind |
| Interceptors.NoticeNotEmpty | src/services/api.ts:36-42 | the message shown for any failure is non-empty |
| Interceptors.AfterError | src/services/api.ts:33-44 | a failure appends exactly one message; a 401 removes the token and sets the location to /login; any other failure leaves token and location unchanged |
| Interceptors.ReplayNotifications | src/services/api.ts:32-44 | a run of failures appends exactly one message per failure, in order, and keeps the earlier messages |
| Interceptors.ReplaySession | src/services/api.ts:33-36 | after a run of failures the token is cleared and the page is /login iff some failure was a 401; failures never set a token |
| Interceptors.DuplicateSkuScenario | src/services/api.ts:39-40 | a 409 with body message "SKU already exists" is an API error that shows that exact text |
| Interceptors.ApiClient.constructor | src/services/api.ts:8-13 | the client's base URL is the configured one and the session starts with the stored token and no messages |
| Interceptors.ApiClient.InterceptRequest | src/services/api.ts:17-23 | the outgoing configuration is the stamped one for the currently stored token; the session is not changed |
| Interceptors.ApiClient.InterceptRequestError | src/services/api.ts:24-26 | a request-phase error is rejected again unchanged |
| Interceptors.ApiClient.InterceptResponse | src/services/api.ts:31 | a successful response passes through identically, with no change to the session |
| Interceptors.ApiClient.InterceptResponseError | src/services/api.ts:32-45 | the original error is rejected again unchanged, and the new session state is the state after that failure |
| Interceptors.ApiClient.Call | src/services/api.ts:16-46 | a call sends the stamped configuration of the API's request, which routes to the call's operation; a success leaves the session alone, and a failure updates it as AfterError says; the outcome is returned unchanged |

## Left out

- The network, JSON (de)serialisation, promises and async sequencing. The transport's outcome is a parameter of `ApiClient.Call`.
- Interleaving of concurrent in-flight calls, and the race between a token read and a concurrent clear.
- Cancellation is not modelled.
- The server's routing is not modelled. `Route` is a strict reference decoder of the client's own path scheme. It rejects spellings a server may accept, such as reordered query parameters, leading zeros or a trailing slash.
- `localStorage`, `window.location` and `toast` are fields of `ApiClient`. Browser behaviour such as the page reload after the location changes is not modelled.
- Decimal.IntToString: only integers are modelled. JavaScript renders numbers of 10^21 and above in exponent form, and non-integral numbers with a fraction, and neither is modelled. Page, size and ids are `int`.
- Interceptors.Classify: the body message is modelled as a string. A non-string truthy `message`, which JavaScript would pass to the toast as it is, is not modelled.
- Interceptors.ApiClient.InterceptRequest: the source assigns the header on the configuration object it was given and returns that same object. The model returns a new configuration value, so aliasing of the configuration object is not captured. Header names are compared exactly, not case-insensitively as axios does.
- Types: prices and amounts are `real` with no arithmetic. Counts and ids are `int` with no sign constraint, because the client never checks them.
- Server-side invariants that the client never computes or checks are not modelled:
  - an order's total is the sum of its line totals;
  - `totalPages` is the ceiling of `totalElements / size`;
  - the stock effect of a transaction.
- The list calls declare `{content, totalElements}` (`Types.PageSummary`) as their result, not the full `PaginatedResponse`. Response bodies are not interpreted: `ApiClient.Call` returns the outcome as it came.
- Storing the token after login and clearing it on logout happen outside `src/services/api.ts` and are not part of this model.
- The form, dashboard and chart types and `ApiResponse` are not part of this model; only UI code uses them, or nothing does.
- `src/pages/Dashboard/Dashboard.tsx`, `src/App.tsx` and `src/components/Placeholder.tsx` are not part of this model. They are rendering and routing.
