/** The HTTP helpers of the front end (app/libs/auth/api.ts): `api`, which
    sends a JSON request with the stored bearer token and turns the response
    into a value or an error, and `uploadFile`, which posts one file as a
    multipart form. `fetch` is not modelled: what it yields is an input
    (`Fetched`). The browser state the helpers touch, `localStorage` and
    `window.location`, lives in the fields of ApiClient. */
module Api {
  import opened Js
  import RouteGuard

  const DefaultApiUrl: string := "http://localhost:3001/api"
  const UnauthorizedMessage: string := "Não autorizado"
  const RequestFailedMessage: string := "Erro na requisição"
  const UploadFailedMessage: string := "Erro no upload"
  const ConnectionErrorMessage: string := "Erro ao conectar com o servidor"

  /** A parsed JSON body: its `message` property, when it has one, and the rest of the value. */
  datatype Json<D> = Json(message: Option<string>, payload: D)

  /** What `response.json()` yields: a parsed body, or the error it throws. */
  datatype Body<D> = Parsed(json: Json<D>) | Unparseable(parseError: string)

  /** What `fetch` yields: a rejected promise (the network failed) or a response. */
  datatype Fetched<D> = NetworkFailure(reason: string) | Response(status: int, body: Body<D>)

  /** A request as handed to `fetch`; `formFile` is the `file` field of a multipart body. */
  datatype Request = Request(url: string, httpMethod: Option<string>, headers: map<string, string>, formFile: Option<File>)

  /** What the helpers throw: an `ApiError`, or any other `Error` with its message. */
  datatype Failure<D> =
    | ApiError(message: string, status: int, data: Option<Json<D>>)
    | Thrown(message: string)

  datatype Result<T, E> = Ok(value: T) | Err(error: E)

  /** `response.ok`: true exactly for the 2xx status class, so never for 401. */
  function IsOkStatus(status: int): (ok: bool)
    ensures ok <==> status / 100 == 2
    ensures ok ==> status != 401
  {
    200 <= status <= 299
  }

  predicate IsUnauthorized<D>(fetched: Fetched<D>)
  {
    fetched.Response? && fetched.status == 401
  }

  /** The `API_URL` constant: the configured URL when it is set and not empty, else the default. */
  function BaseUrl(env: Option<string>): (u: string)
    ensures Truthy(env) ==> u == env.value
    ensures !Truthy(env) ==> u == DefaultApiUrl
  {
    Or(env, DefaultApiUrl)
  }

  /** The headers `api` sends, key by key: `Content-Type: application/json`
      unless the caller gives its own, every caller header, and
      `Authorization: Bearer <token>` over any caller value when a token is stored. */
  ghost predicate HeadersFor(h: map<string, string>, overrides: map<string, string>, token: Option<string>)
  {
    && h.Keys == {"Content-Type"} + overrides.Keys + (if Truthy(token) then {"Authorization"} else {})
    && ("Content-Type" !in overrides ==> h["Content-Type"] == "application/json")
    && (Truthy(token) ==> h["Authorization"] == "Bearer " + token.value)
    && (forall k :: k in overrides && !(k == "Authorization" && Truthy(token)) ==> h[k] == overrides[k])
  }

  /** HeadersFor leaves no freedom: it describes one header record. */
  lemma HeadersForIsUnique(h1: map<string, string>, h2: map<string, string>, overrides: map<string, string>, token: Option<string>)
    requires HeadersFor(h1, overrides, token) && HeadersFor(h2, overrides, token)
    ensures h1 == h2
  {
  }

  /** Builds the header record of `api`: defaults, then the caller's headers,
      then the bearer token written into the record. */
  method MergeHeaders(overrides: map<string, string>, token: Option<string>) returns (headers: map<string, string>)
    ensures HeadersFor(headers, overrides, token)
  {
    headers := map["Content-Type" := "application/json"] + overrides;
    if Truthy(token) {
      headers := headers["Authorization" := "Bearer " + token.value];
    }
  }

  /** `Bearer ${token}` where the token may be `null`: the template prints "null". */
  function BearerText(token: Option<string>): (s: string)
    ensures token.Some? ==> s == "Bearer " + token.value
    ensures token.None? ==> s == "Bearer null"
  {
    "Bearer " + (if token.Some? then token.value else "null")
  }

  /** How both helpers read a response: 401 before the body is read, then the
      body, then `response.ok`. `fallback` is the message used when a failed
      response's body has no truthy `message`. Errors are not yet wrapped. */
  function Classify<D>(fetched: Fetched<D>, fallback: string): (r: Result<Json<D>, Failure<D>>)
    ensures fetched.NetworkFailure? ==> r == Err(Thrown(fetched.reason))
    ensures IsUnauthorized(fetched) ==> r == Err(ApiError(UnauthorizedMessage, 401, None))
    ensures r.Ok? <==> fetched.Response? && IsOkStatus(fetched.status) && fetched.body.Parsed?
    ensures r.Ok? ==> r.value == fetched.body.json
    ensures r.Err? && r.error.ApiError? ==> fetched.Response? && r.error.status == fetched.status && !IsOkStatus(fetched.status)
    ensures fetched.Response? && !IsUnauthorized(fetched) && fetched.body.Unparseable? ==>
      r == Err(Thrown(fetched.body.parseError))
    ensures fetched.Response? && !IsUnauthorized(fetched) && fetched.body.Parsed? && !IsOkStatus(fetched.status) ==>
      r == Err(ApiError(Or(fetched.body.json.message, fallback), fetched.status, Some(fetched.body.json)))
  {
    match fetched
    case NetworkFailure(reason) => Err(Thrown(reason))
    case Response(status, body) =>
      if status == 401 then Err(ApiError(UnauthorizedMessage, 401, None))
      else
        match body
        case Unparseable(parseError) => Err(Thrown(parseError))
        case Parsed(json) =>
          if !IsOkStatus(status) then Err(ApiError(Or(json.message, fallback), status, Some(json)))
          else Ok(json)
  }

  /** The `catch` of `api`: an ApiError is rethrown as it is, anything else
      becomes the one connection error. */
  function WrapForeign<T, D>(r: Result<T, Failure<D>>): (w: Result<T, Failure<D>>)
    ensures w.Ok? <==> r.Ok?
    ensures r.Ok? ==> w == r
    ensures r.Err? && r.error.ApiError? ==> w == r
    ensures r.Err? && r.error.Thrown? ==> w == Err(Thrown(ConnectionErrorMessage))
  {
    match r
    case Ok(_) => r
    case Err(ApiError(_, _, _)) => r
    case Err(Thrown(_)) => Err(Thrown(ConnectionErrorMessage))
  }

  /** What `api` resolves to, or the error it rejects with: the parsed body
      of an ok response unchanged, the 401 error, an ApiError with the
      response's status and message, or the single connection error for
      every other failure. */
  function ApiOutcome<D>(fetched: Fetched<D>): (r: Result<Json<D>, Failure<D>>)
    ensures r.Ok? <==> fetched.Response? && IsOkStatus(fetched.status) && fetched.body.Parsed?
    ensures r.Ok? ==> r.value == fetched.body.json
    ensures IsUnauthorized(fetched) ==> r == Err(ApiError(UnauthorizedMessage, 401, None))
    ensures fetched.Response? && !IsUnauthorized(fetched) && fetched.body.Parsed? && !IsOkStatus(fetched.status) ==>
      r == Err(ApiError(Or(fetched.body.json.message, RequestFailedMessage), fetched.status, Some(fetched.body.json)))
    ensures r.Err? && r.error.Thrown? <==>
      fetched.NetworkFailure? || (!IsUnauthorized(fetched) && fetched.body.Unparseable?)
    ensures r.Err? && r.error.Thrown? ==> r.error.message == ConnectionErrorMessage
  {
    WrapForeign(Classify(fetched, RequestFailedMessage))
  }

  /** What `uploadFile` resolves to, or the error it rejects with: the same
      reading with its own default message, and foreign errors (network,
      body parse) rethrown with their own message. */
  function UploadOutcome<D>(fetched: Fetched<D>): (r: Result<Json<D>, Failure<D>>)
    ensures r.Ok? <==> fetched.Response? && IsOkStatus(fetched.status) && fetched.body.Parsed?
    ensures r.Ok? ==> r.value == fetched.body.json
    ensures IsUnauthorized(fetched) ==> r == Err(ApiError(UnauthorizedMessage, 401, None))
    ensures fetched.Response? && !IsUnauthorized(fetched) && fetched.body.Parsed? && !IsOkStatus(fetched.status) ==>
      r == Err(ApiError(Or(fetched.body.json.message, UploadFailedMessage), fetched.status, Some(fetched.body.json)))
    ensures fetched.NetworkFailure? ==> r == Err(Thrown(fetched.reason))
    ensures fetched.Response? && !IsUnauthorized(fetched) && fetched.body.Unparseable? ==>
      r == Err(Thrown(fetched.body.parseError))
  {
    Classify(fetched, UploadFailedMessage)
  }

  /** `api` and `uploadFile` read a response alike: they succeed on the same
      responses with the same body and fail with an ApiError of the same
      status on the same responses. Only `api` wraps the other errors, and
      the default messages differ. */
  lemma ApiAndUploadAgree<D>(fetched: Fetched<D>)
    ensures ApiOutcome(fetched).Ok? <==> UploadOutcome(fetched).Ok?
    ensures ApiOutcome(fetched).Ok? ==> ApiOutcome(fetched) == UploadOutcome(fetched)
    ensures ApiOutcome(fetched).Err? && ApiOutcome(fetched).error.ApiError? <==>
      UploadOutcome(fetched).Err? && UploadOutcome(fetched).error.ApiError?
    ensures ApiOutcome(fetched).Err? && ApiOutcome(fetched).error.ApiError? ==>
      ApiOutcome(fetched).error.status == UploadOutcome(fetched).error.status
    ensures UploadOutcome(fetched).Err? && UploadOutcome(fetched).error.Thrown? ==>
      ApiOutcome(fetched) == WrapForeign(UploadOutcome(fetched))
  {
  }

  /** The browser state the helpers read and write, and the configured base URL. */
  class ApiClient {
    /** `API_URL` */
    const apiUrl: string
    /** `typeof window !== 'undefined'`: false while rendering on the server */
    const hasWindow: bool
    /** `localStorage` */
    var storage: map<string, string>
    /** the last value assigned to `window.location.href`, if any */
    var location: Option<string>

    constructor (env: Option<string>, hasWindow: bool, storage: map<string, string>)
      ensures apiUrl == BaseUrl(env) && this.hasWindow == hasWindow
      ensures this.storage == storage && location == None
    {
      apiUrl := BaseUrl(env);
      this.hasWindow := hasWindow;
      this.storage := storage;
      location := None;
    }

    /** The token the helpers read: `localStorage.getItem('token')`, or null on the server. */
    function StoredToken(): (t: Option<string>)
      reads this
      ensures t.Some? <==> hasWindow && "token" in storage
      ensures t.Some? ==> t.value == storage["token"]
    {
      if hasWindow && "token" in storage then Some(storage["token"]) else None
    }

    /** On a 401: forget the token and the user, and send the browser to the login page. */
    method SignOut()
      modifies this
      ensures hasWindow ==> storage == old(storage) - {"token", "user"} && location == Some(RouteGuard.LoginPath)
      ensures !hasWindow ==> storage == old(storage) && location == old(location)
      ensures "token" !in storage || !hasWindow
    {
      if hasWindow {
        storage := storage - {"token", "user"};
        location := Some(RouteGuard.LoginPath);
      }
    }

    /** `api(endpoint, { method: httpMethod, headers: overrides })`, where the
        server answers with `fetched`. Returns the request sent and the outcome. */
    method Api<D>(endpoint: string, httpMethod: Option<string>, overrides: map<string, string>, fetched: Fetched<D>)
      returns (request: Request, r: Result<Json<D>, Failure<D>>)
      modifies this
      ensures request.url == apiUrl + endpoint
      ensures request.httpMethod == httpMethod && request.formFile == None
      ensures HeadersFor(request.headers, overrides, old(StoredToken()))
      ensures r == ApiOutcome(fetched)
      ensures IsUnauthorized(fetched) && hasWindow ==>
        storage == old(storage) - {"token", "user"} && location == Some(RouteGuard.LoginPath)
      ensures !(IsUnauthorized(fetched) && hasWindow) ==> storage == old(storage) && location == old(location)
    {
      var url := apiUrl + endpoint;
      var token := StoredToken();
      var headers := MergeHeaders(overrides, token);
      request := Request(url, httpMethod, headers, None);
      if IsUnauthorized(fetched) {
        SignOut();
      }
      r := ApiOutcome(fetched);
    }

    /** `uploadFile(endpoint, file)`, where the server answers with `fetched`. */
    method UploadFile<D>(endpoint: string, file: File, fetched: Fetched<D>)
      returns (request: Request, r: Result<Json<D>, Failure<D>>)
      modifies this
      ensures request.url == apiUrl + endpoint
      ensures request.httpMethod == Some("POST") && request.formFile == Some(file)
      ensures request.headers == map["Authorization" := BearerText(old(StoredToken()))]
      ensures "Authorization" in request.headers && StartsWith(request.headers["Authorization"], "Bearer ")
      ensures "Content-Type" !in request.headers
      ensures r == UploadOutcome(fetched)
      ensures IsUnauthorized(fetched) && hasWindow ==>
        storage == old(storage) - {"token", "user"} && location == Some(RouteGuard.LoginPath)
      ensures !(IsUnauthorized(fetched) && hasWindow) ==> storage == old(storage) && location == old(location)
    {
      var token := StoredToken();
      request := Request(apiUrl + endpoint, Some("POST"), map["Authorization" := BearerText(token)], Some(file));
      if IsUnauthorized(fetched) {
        SignOut();
      }
      r := UploadOutcome(fetched);
    }
  }
}
