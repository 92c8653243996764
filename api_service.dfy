/** ApiService: builds every backend request, checks the response envelope
    and re-wraps failures into a single error message. */
module ApiService {
  import opened Wrappers
  import opened Types
  import JwtService

  /** A JSON value as axios hands back a parsed body. */
  datatype Json =
    | JNull
    | JBool(b: bool)
    | JNumber(n: int)
    | JString(s: string)
    | JArray(elements: seq<Json>)
    | JObject(fields: map<string, Json>)

  /** A value thrown in JavaScript: an Error with its message, or anything else. */
  datatype Thrown = ErrorThrown(message: string) | OtherThrown

  /** What axios.request settled with: the response body, or the value it
      rejected with (for an HTTP error, an AxiosError carrying its message). */
  datatype Transport = Delivered(body: Json) | Rejected(thrown: Thrown)

  /** The axios request configuration `request` assembles. */
  datatype RequestOptions = RequestOptions(url: string, verb: string, headers: map<string, string>, data: Json)

  /** One of the four ApiService entry points with its arguments. */
  datatype ApiCall =
    | GetCall(resource: string)
    | PostCall(resource: string, params: Json)
    | PutCall(resource: string, params: Json)
    | DeleteCall(resource: string)

  const BaseUrl: string := "http://localhost:5260/api"
  const UnexpectedFormat: string := "Unexpected response format"
  const UnexpectedError: string := "An unexpected error occurred"
  const NetworkErrorPrefix: string := "Network Error: "
  /** The message of the TypeError raised on `null.success`, in V8's
      wording (other engines word it differently). */
  const NullBodyMessage: string := "Cannot read properties of null (reading 'success')"

  /** success is a boolean, message is a string, and a data key is present. */
  ghost predicate IsEnvelope(body: Json) {
    && body.JObject?
    && "success" in body.fields && body.fields["success"].JBool?
    && "message" in body.fields && body.fields["message"].JString?
    && "data" in body.fields
  }

  /** handleResponse: lets a well-formed envelope through untouched and
      throws on anything else. */
  function HandleResponse(body: Json): (r: Result<Json, Thrown>)
    ensures r.Ok? <==> IsEnvelope(body)
    ensures r.Ok? ==> r.value == body
    ensures r.Err? && body != JNull ==> r.error == ErrorThrown(UnexpectedFormat)
  {
    match body
    case JNull => Err(ErrorThrown(NullBodyMessage))
    case JObject(fields) =>
      if "success" in fields && fields["success"].JBool? &&
         "message" in fields && fields["message"].JString? &&
         "data" in fields
      then Ok(body)
      else Err(ErrorThrown(UnexpectedFormat))
    case _ => Err(ErrorThrown(UnexpectedFormat))
  }

  /** The envelope a conforming backend sends. */
  function Envelope(success: bool, message: string, data: Json): Json {
    JObject(map["success" := JBool(success), "message" := JString(message), "data" := data])
  }

  /** Every envelope a conforming backend can send is accepted, whatever its
      success flag and data, and whatever extra keys ride along. */
  lemma EnvelopeAccepted(success: bool, message: string, data: Json, extra: map<string, Json>)
    ensures HandleResponse(Envelope(success, message, data)) == Ok(Envelope(success, message, data))
    ensures var body := JObject(extra + Envelope(success, message, data).fields);
            HandleResponse(body) == Ok(body)
  {
  }

  /** An object missing any of the three keys is rejected. */
  lemma MissingKeyRejected(fields: map<string, Json>, key: string)
    requires key in {"success", "message", "data"}
    ensures HandleResponse(JObject(fields - {key})) == Err(ErrorThrown(UnexpectedFormat))
  {
  }

  /** The message `request` throws for whatever went wrong inside it. */
  function Rewrap(t: Thrown): string {
    match t
    case ErrorThrown(m) => NetworkErrorPrefix + m
    case OtherThrown => UnexpectedError
  }

  /** The headers `request` sends for a given stored session. */
  function HeadersFor(auth: Option<AuthRecord>): (h: map<string, string>)
    ensures "Content-Type" in h && h["Content-Type"] == "application/json"
    ensures "Authorization" in h <==> auth.Some? && auth.value.token != ""
    ensures "Authorization" in h ==> h["Authorization"] == "Bearer " + auth.value.token
    ensures h.Keys <= {"Content-Type", "Authorization"}
  {
    var base := map["Content-Type" := "application/json"];
    if auth.Some? && auth.value.token != "" then base["Authorization" := "Bearer " + auth.value.token]
    else base
  }

  /** What `request` resolves or rejects with, given what axios settled with. */
  function Outcome(transport: Transport): Result<Json, string> {
    match transport
    case Rejected(t) => Err(Rewrap(t))
    case Delivered(body) =>
      match HandleResponse(body)
      case Ok(envelope) => Ok(envelope)
      case Err(t) => Err(Rewrap(t))
  }

  /** A request resolves exactly when axios delivered a well-formed envelope,
      and then with that envelope. */
  lemma OutcomeAccepts(transport: Transport)
    ensures Outcome(transport).Ok? <==> transport.Delivered? && IsEnvelope(transport.body)
    ensures Outcome(transport).Ok? ==> Outcome(transport).value == transport.body
  {
  }

  /** Every failure leaves `request` as "Network Error: " followed by the
      original message, or as the generic message for a non-Error. */
  lemma OutcomeErrors(transport: Transport)
    ensures Outcome(transport).Err? ==>
              || Outcome(transport).error == UnexpectedError
              || exists m :: Outcome(transport).error == NetworkErrorPrefix + m
    ensures transport.Delivered? && !IsEnvelope(transport.body) && transport.body != JNull ==>
              Outcome(transport) == Err(NetworkErrorPrefix + UnexpectedFormat)
  {
    if transport.Rejected? && transport.thrown.ErrorThrown? {
      assert Outcome(transport).error == NetworkErrorPrefix + transport.thrown.message;
    }
    if transport.Delivered? && !IsEnvelope(transport.body) {
      assert Outcome(transport).error == NetworkErrorPrefix + HandleResponse(transport.body).error.message;
    }
  }

  /** request: reads the stored session, assembles url, method, headers and
      body, and hands them to axios, whose settlement is `transport`. */
  method Request(storage: JwtService.LocalStorage, transport: Transport, resource: string,
                 verb: string := "GET", params: Json := JNull)
    returns (options: RequestOptions, r: Result<Json, string>)
    ensures options.url == BaseUrl + resource
    ensures options.verb == verb && options.data == params
    ensures options.headers == HeadersFor(JwtService.StoredAuth(storage.items))
    ensures r == Outcome(transport)
  {
    var auth := JwtService.GetAuth(storage);
    var headers: map<string, string> := map["Content-Type" := "application/json"];
    if auth.Some? && auth.value.token != "" {
      headers := headers["Authorization" := "Bearer " + auth.value.token];
    }
    options := RequestOptions(BaseUrl + resource, verb, headers, params);
    match transport {
      case Rejected(t) =>
        r := Err(Rewrap(t));
      case Delivered(body) =>
        var handled := HandleResponse(body);
        if handled.Ok? {
          r := Ok(handled.value);
        } else {
          r := Err(Rewrap(handled.error));
        }
    }
  }

  method Get(storage: JwtService.LocalStorage, transport: Transport, resource: string)
    returns (options: RequestOptions, r: Result<Json, string>)
    ensures options.verb == "GET" && options.data == JNull && options.url == BaseUrl + resource
    ensures options.headers == HeadersFor(JwtService.StoredAuth(storage.items))
    ensures r == Outcome(transport)
  {
    options, r := Request(storage, transport, resource);
  }

  method Post(storage: JwtService.LocalStorage, transport: Transport, resource: string, params: Json)
    returns (options: RequestOptions, r: Result<Json, string>)
    ensures options.verb == "POST" && options.data == params && options.url == BaseUrl + resource
    ensures options.headers == HeadersFor(JwtService.StoredAuth(storage.items))
    ensures r == Outcome(transport)
  {
    options, r := Request(storage, transport, resource, "POST", params);
  }

  method Put(storage: JwtService.LocalStorage, transport: Transport, resource: string, params: Json)
    returns (options: RequestOptions, r: Result<Json, string>)
    ensures options.verb == "PUT" && options.data == params && options.url == BaseUrl + resource
    ensures options.headers == HeadersFor(JwtService.StoredAuth(storage.items))
    ensures r == Outcome(transport)
  {
    options, r := Request(storage, transport, resource, "PUT", params);
  }

  method Delete(storage: JwtService.LocalStorage, transport: Transport, resource: string)
    returns (options: RequestOptions, r: Result<Json, string>)
    ensures options.verb == "DELETE" && options.data == JNull && options.url == BaseUrl + resource
    ensures options.headers == HeadersFor(JwtService.StoredAuth(storage.items))
    ensures r == Outcome(transport)
  {
    options, r := Request(storage, transport, resource, "DELETE");
  }

  /** The HTTP method each entry point passes to `request`. */
  function MethodOf(call: ApiCall): string {
    match call
    case GetCall(_) => "GET"
    case PostCall(_, _) => "POST"
    case PutCall(_, _) => "PUT"
    case DeleteCall(_) => "DELETE"
  }

  /** The body each entry point passes to `request`: only post and put carry one. */
  function BodyOf(call: ApiCall): Json {
    match call
    case PostCall(_, params) => params
    case PutCall(_, params) => params
    case _ => JNull
  }

  /** Issues a call through its entry point. */
  method Send(storage: JwtService.LocalStorage, transport: Transport, call: ApiCall)
    returns (options: RequestOptions, r: Result<Json, string>)
    ensures options == RequestOptions(BaseUrl + call.resource, MethodOf(call),
                                      HeadersFor(JwtService.StoredAuth(storage.items)), BodyOf(call))
    ensures r == Outcome(transport)
  {
    match call {
      case GetCall(resource) => options, r := Get(storage, transport, resource);
      case PostCall(resource, params) => options, r := Post(storage, transport, resource, params);
      case PutCall(resource, params) => options, r := Put(storage, transport, resource, params);
      case DeleteCall(resource) => options, r := Delete(storage, transport, resource);
    }
  }
}
