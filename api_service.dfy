/**
 * The API client of src/services/apiService.js: which token it uses, the
 * headers it derives from it, how caller headers are merged over them, and
 * how a response becomes a value or a thrown error. `fetch` is abstracted:
 * the request it would send is an output, the response an input.
 */
module ApiService {
  import opened Wrappers
  import opened Storage
  import opened AuthContext

  const Host: string := "http://localhost:8080"
  const ContentType: string := "Content-Type"
  const Authorization: string := "Authorization"
  const Json: string := "application/json"

  type Headers = map<string, string>

  /**
   * `auth?.token`: undefined for a null `auth`, the wrapped token of a
   * boot-time `{ token }`, and the "token" claim (usually absent) of a
   * decoded JWT.
   */
  function TokenField(auth: Auth): (r: Option<string>)
    ensures auth.Null? ==> r.None?
    ensures auth.Restored? ==> r == Some(auth.token)
    ensures auth.Decoded? ==> (r.Some? <==> "token" in auth.claims)
    ensures auth.Decoded? && r.Some? ==> r.value == auth.claims["token"]
  {
    match auth
    case Null => None
    case Restored(token) => Some(token)
    case Decoded(claims) => if "token" in claims then Some(claims["token"]) else None
  }

  /**
   * `auth?.token || getStoredToken()`: the token `auth` carries when it is
   * non-empty, otherwise whatever storage gives.
   */
  function DerivedToken(auth: Auth, session: Tier, local: Tier): (r: Option<string>)
    ensures Truthy(r) <==> Truthy(TokenField(auth)) || Truthy(StoredToken(session, local))
    ensures Truthy(TokenField(auth)) ==> r == TokenField(auth)
    ensures !Truthy(TokenField(auth)) ==> r == StoredToken(session, local)
  {
    Or(TokenField(auth), StoredToken(session, local))
  }

  /**
   * createHeaders: always `Content-Type: application/json`; `Authorization:
   * Bearer <token>` exactly when a non-empty token is found, `auth.token`
   * taking precedence over the stored token; no other header.
   */
  method CreateHeaders(auth: Auth, session: Tier, local: Tier) returns (headers: Headers)
    ensures headers.Keys <= {ContentType, Authorization}
    ensures ContentType in headers && headers[ContentType] == Json
    ensures Authorization in headers <==> Truthy(TokenField(auth)) || Truthy(StoredToken(session, local))
    ensures Truthy(TokenField(auth)) ==> headers[Authorization] == "Bearer " + TokenField(auth).value
    ensures !Truthy(TokenField(auth)) && Truthy(StoredToken(session, local)) ==>
      headers[Authorization] == "Bearer " + StoredToken(session, local).value
  {
    headers := map[ContentType := Json];
    var token := DerivedToken(auth, session, local);
    if Truthy(token) {
      headers := headers[Authorization := "Bearer " + token.value];
    }
  }

  /** `{ ...derived, ...caller }`: caller headers override derived ones key by key; the rest are kept. */
  function MergeHeaders(derived: Headers, caller: Headers): (merged: Headers)
    ensures merged.Keys == derived.Keys + caller.Keys
    ensures forall k :: k in caller ==> merged[k] == caller[k]
    ensures forall k :: k in derived && k !in caller ==> merged[k] == derived[k]
  {
    derived + caller
  }

  /** The options a service passes: method and body go to `fetch` as they are. */
  datatype RequestOptions = RequestOptions(httpMethod: Option<string>, body: Option<string>, auth: Auth, headers: Headers)

  /** The request `fetch` is given. */
  datatype Request = Request(url: string, httpMethod: Option<string>, body: Option<string>, headers: Headers)

  /** What `fetch` settles with: a rejection, or a response whose body may fail to parse as JSON. */
  datatype Response<B> = Unreachable | Received(ok: bool, statusText: string, json: Option<B>)

  /**
   * apiRequest: sends `Host + endpoint` with the merged headers; throws
   * "API request failed: <statusText>" exactly when a received response is
   * not ok, and otherwise yields the parsed body. A rejected `fetch` and a
   * body that is not JSON propagate as errors.
   */
  method ApiRequest<B>(endpoint: string, options: RequestOptions, session: Tier, local: Tier, response: Response<B>)
    returns (request: Request, result: Result<B>)
    ensures request.url == Host + endpoint
    ensures request.httpMethod == options.httpMethod && request.body == options.body
    ensures ContentType in request.headers
    ensures forall k :: k in options.headers ==> k in request.headers && request.headers[k] == options.headers[k]
    ensures forall k :: k in request.headers && k !in options.headers ==> k == ContentType || k == Authorization
    ensures ContentType !in options.headers ==> request.headers[ContentType] == Json
    ensures Authorization !in options.headers ==>
      (Authorization in request.headers <==> Truthy(DerivedToken(options.auth, session, local)))
    ensures Authorization !in options.headers && Truthy(DerivedToken(options.auth, session, local)) ==>
      request.headers[Authorization] == "Bearer " + DerivedToken(options.auth, session, local).value
    ensures response.Received? && !response.ok ==> result == Failure("API request failed: " + response.statusText)
    ensures response.Received? && response.ok ==> (result.Success? <==> response.json.Some?)
    ensures response.Received? && response.ok && response.json.Some? ==> result == Success(response.json.value)
    ensures response.Unreachable? ==> result.Failure?
  {
    var derived := CreateHeaders(options.auth, session, local);
    request := Request(Host + endpoint, options.httpMethod, options.body, MergeHeaders(derived, options.headers));
    match response {
      case Unreachable =>
        result := Failure("Failed to fetch");
      case Received(ok, statusText, json) =>
        if !ok {
          result := Failure("API request failed: " + statusText);
        } else if json.None? {
          result := Failure("Unexpected token in JSON");
        } else {
          result := Success(json.value);
        }
    }
  }

  /**
   * The headers of the first request after a login. Decoded claims normally
   * carry no "token", so the stored token is what is sent: the new one,
   * unless the login was remembered while the session tier still held an
   * older token, which then shadows it.
   */
  method HeadersAfterLogin(session: Tier, local: Tier, data: ServiceResult, rememberMe: bool, decode: Decoder)
    returns (ok: bool, headers: Headers)
    ensures ok <==> AcceptToken(data, decode).Some?
    ensures ok && "token" !in AcceptToken(data, decode).value.1 && (!rememberMe || !Truthy(GetItem(session, TokenKey))) ==>
      Authorization in headers && headers[Authorization] == "Bearer " + data.accessToken.value
    ensures ok && "token" !in AcceptToken(data, decode).value.1 && rememberMe && Truthy(GetItem(session, TokenKey)) ==>
      Authorization in headers && headers[Authorization] == "Bearer " + session[TokenKey]
  {
    var provider := new AuthProvider(session, local);
    ok := provider.Login(data, rememberMe, decode);
    headers := CreateHeaders(provider.auth, provider.sessionStorage, provider.localStorage);
  }
}
