/**
 * The configured HTTP client, reduced to the values it exchanges: the request
 * an API call builds, the configuration the interceptors see, and the error a
 * failed call carries. Sending, JSON and promises are not modelled.
 */
module Http {
  import opened Wrappers
  import opened Types

  datatype Verb = GET | POST | PUT | DELETE

  /** The JSON body of a request, by the type it serialises. */
  datatype Body =
    | NoBody
    | CredentialsBody(credentials: LoginCredentials)
    | ProductBody(product: CreateProductDTO)
    | PatchBody(patch: ProductPatch)
    | OrderBody(order: CreateOrderDTO)
    | TransactionBody(transaction: NewTransaction)

  /** What an API call hands to the client: a verb, a path relative to the base URL, a body. */
  datatype Request = Request(verb: Verb, url: string, data: Body)

  /** The request configuration the interceptors see and may rewrite. */
  datatype Config = Config(baseUrl: string, headers: map<string, string>, request: Request)

  const DefaultBaseUrl := "http://localhost:8080/api"

  /** The base URL: the environment's override when it is set and non-empty, else the fallback. */
  function BaseUrl(env: Option<string>): (url: string)
    ensures Truthy(env) ==> url == env.value
    ensures !Truthy(env) ==> url == DefaultBaseUrl
    ensures url != ""
  {
    if Truthy(env) then env.value else DefaultBaseUrl
  }

  const DefaultHeaders: map<string, string> := map["Content-Type" := "application/json"]

  /** The configuration the client builds for a request before any interceptor runs. */
  function Prepare(baseUrl: string, req: Request): (cfg: Config)
    ensures cfg.request == req && cfg.baseUrl == baseUrl
    ensures cfg.headers.Keys == {"Content-Type"} && cfg.headers["Content-Type"] == "application/json"
  {
    Config(baseUrl, DefaultHeaders, req)
  }

  /** A failed response: its status and, when its JSON body has one, the `message` field. */
  datatype ErrorResponse = ErrorResponse(status: int, message: Option<string>)

  /**
   * A rejected call. `response` is absent when no response arrived (network
   * failure); `detail` stands for the rest of the error object.
   */
  datatype HttpError = HttpError(response: Option<ErrorResponse>, detail: string)

  /** How the transport settled a call. */
  datatype Outcome<R> = Succeeded(response: R) | Failed(error: HttpError)
}
