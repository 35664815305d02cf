/**
 * The API client (src/app/services/auth.service.ts) with `fetch` replaced by a
 * `Response` parameter: the requests it builds, the `Authorization` header it
 * derives from the stored token, and how a non-OK response becomes the one
 * error message the pages display.
 */
module AuthService {
  import opened Wrappers
  import Storage

  /** The `message` field of a backend error body: absent, one string, or a list of strings. */
  datatype Message = Absent | Text(text: string) | List(items: seq<string>)

  /** The parsed JSON body of a non-OK response; only its `message` field is read. */
  datatype ErrorBody = ErrorBody(message: Message)

  /** What `fetch` resolved to: an OK response with its JSON payload, or a non-OK one. */
  datatype Response<T> = Ok(payload: T) | NotOk(errorBody: ErrorBody)

  /** What the async operation settles to: its value, or an `Error` with a message. */
  datatype Outcome<T> = Resolved(value: T) | Rejected(error: string)

  /** A request as handed to `fetch`; `body` is the JSON object, None for a GET. */
  datatype Request = Request(httpMethod: string, path: string, headers: map<string, string>, body: Option<map<string, string>>)

  /** One call: the request sent and the outcome given the response received. */
  datatype Exchange<T> = Exchange(request: Request, outcome: Outcome<T>)

  /** The two operations whose error bodies are normalised. */
  datatype Operation = LoginOp | SignupOp

  /** The message used when the backend gives none. */
  function Fallback(op: Operation): (r: string)
    ensures |r| > 0
  {
    match op
    case LoginOp => "Invalid credentials"
    case SignupOp => "Signup failed"
  }

  const ProfileError := "Failed to fetch profile"
  const Bullet := "• "
  const BulletSeparator := "\n• "

  /** JavaScript truthiness of `errorData.message`: an empty string is falsy, any array is truthy. */
  predicate Truthy(m: Message)
  {
    match m
    case Absent => false
    case Text(t) => t != ""
    case List(_) => true
  }

  /** `Array.prototype.join`: the items with `sep` between consecutive ones. */
  function Join(items: seq<string>, sep: string): string
  {
    if items == [] then ""
    else if |items| == 1 then items[0]
    else items[0] + sep + Join(items[1..], sep)
  }

  /** `'• ' + items.join('\n• ')`. */
  function Bulleted(items: seq<string>): (r: string)
    ensures |r| >= 2 && r[..2] == Bullet
    ensures items == [] ==> r == Bullet
    ensures |items| == 1 ==> r == Bullet + items[0]
  {
    Bullet + Join(items, BulletSeparator)
  }

  /** The display message for a non-OK login or signup response. */
  function ErrorMessage(op: Operation, body: ErrorBody): (r: string)
    ensures |r| > 0
  {
    match body.message
    case List(items) => Bulleted(items)
    case Text(t) => if Truthy(body.message) then t else Fallback(op)
    case Absent => Fallback(op)
  }

  /** `getAuthToken`: the stored `auth_token`, or None when the key is absent. */
  function GetAuthToken(items: map<string, string>): (t: Option<string>)
    ensures t.Some? <==> Storage.TokenKey in items
    ensures t.Some? ==> t.value == items[Storage.TokenKey]
  {
    Storage.Lookup(items, Storage.TokenKey)
  }

  /** `getAuthHeaders`: JSON content type, plus a bearer credential when the token is truthy. */
  function AuthHeaders(token: Option<string>): (h: map<string, string>)
    ensures h.Keys <= {"Content-Type", "Authorization"}
    ensures "Content-Type" in h && h["Content-Type"] == "application/json"
    ensures "Authorization" in h <==> token.Some? && token.value != ""
    ensures "Authorization" in h ==> h["Authorization"] == "Bearer " + token.value
  {
    var base := map["Content-Type" := "application/json"];
    if token.Some? && token.value != "" then base["Authorization" := "Bearer " + token.value] else base
  }

  /**
   * The credentials of an `Authorization` value in the exact `Bearer <token>` form
   * the client writes (the bearer scheme of section 2.1 of RFC 6750), or None.
   */
  function BearerCredentials(value: string): (t: Option<string>)
    ensures t.Some? <==> "Bearer " <= value
    ensures t.Some? ==> value == "Bearer " + t.value
  {
    if "Bearer " <= value then Some(value[7..]) else None
  }

  /** The token the headers carry is exactly the stored token. */
  lemma AuthorizationCarriesToken(token: Option<string>)
    requires token.Some? && token.value != ""
    ensures BearerCredentials(AuthHeaders(token)["Authorization"]) == token
  {
    var v := AuthHeaders(token)["Authorization"];
    assert "Bearer " <= v;
    assert v[7..] == token.value;
  }

  /** The headers written out for login and signup: content type only. */
  const JsonHeaders := map["Content-Type" := "application/json"]

  function LoginRequest(email: string, password: string): (r: Request)
    ensures r.httpMethod == "POST" && r.path == "/auth/login"
    ensures r.headers.Keys == {"Content-Type"} && r.headers["Content-Type"] == "application/json"
    ensures r.body.Some? && r.body.value.Keys == {"email", "password"}
    ensures r.body.Some? && r.body.value["email"] == email && r.body.value["password"] == password
  {
    Request("POST", "/auth/login", JsonHeaders, Some(map["email" := email, "password" := password]))
  }

  /** `AuthService.login`, given the response `fetch` resolves to. */
  function Login<T>(email: string, password: string, response: Response<T>): (r: Exchange<T>)
    ensures r.request == LoginRequest(email, password)
    ensures "Authorization" !in r.request.headers
    ensures response.Ok? ==> r.outcome == Resolved(response.payload)
    ensures response.NotOk? ==> r.outcome.Rejected?
    ensures response.NotOk? && response.errorBody.message.List? ==>
              r.outcome.error == Bullet + Join(response.errorBody.message.items, BulletSeparator)
    ensures response.NotOk? && response.errorBody.message.Text? && response.errorBody.message.text != "" ==>
              r.outcome.error == response.errorBody.message.text
    ensures response.NotOk? && !Truthy(response.errorBody.message) ==>
              r.outcome.error == "Invalid credentials"
  {
    var outcome := match response
      case Ok(payload) => Resolved(payload)
      case NotOk(body) => Rejected(ErrorMessage(LoginOp, body));
    Exchange(LoginRequest(email, password), outcome)
  }

  function SignupRequest(firstName: string, lastName: string, email: string, password: string): (r: Request)
    ensures r.httpMethod == "POST" && r.path == "/auth/signup"
    ensures r.headers.Keys == {"Content-Type"} && r.headers["Content-Type"] == "application/json"
    ensures r.body.Some? && r.body.value.Keys == {"firstName", "lastName", "email", "password"}
    ensures r.body.Some? && r.body.value["firstName"] == firstName && r.body.value["lastName"] == lastName
    ensures r.body.Some? && r.body.value["email"] == email && r.body.value["password"] == password
  {
    Request("POST", "/auth/signup", JsonHeaders,
      Some(map["firstName" := firstName, "lastName" := lastName, "email" := email, "password" := password]))
  }

  /** `AuthService.signup`, given the response `fetch` resolves to. */
  function Signup<T>(firstName: string, lastName: string, email: string, password: string, response: Response<T>): (r: Exchange<T>)
    ensures r.request == SignupRequest(firstName, lastName, email, password)
    ensures "Authorization" !in r.request.headers
    ensures response.Ok? ==> r.outcome == Resolved(response.payload)
    ensures response.NotOk? ==> r.outcome.Rejected?
    ensures response.NotOk? && response.errorBody.message.List? ==>
              r.outcome.error == Bullet + Join(response.errorBody.message.items, BulletSeparator)
    ensures response.NotOk? && response.errorBody.message.Text? && response.errorBody.message.text != "" ==>
              r.outcome.error == response.errorBody.message.text
    ensures response.NotOk? && !Truthy(response.errorBody.message) ==>
              r.outcome.error == "Signup failed"
  {
    var outcome := match response
      case Ok(payload) => Resolved(payload)
      case NotOk(body) => Rejected(ErrorMessage(SignupOp, body));
    Exchange(SignupRequest(firstName, lastName, email, password), outcome)
  }

  function ProfileRequest(items: map<string, string>): (r: Request)
    ensures r.httpMethod == "GET" && r.path == "/auth/profile" && r.body.None?
    ensures "Content-Type" in r.headers && r.headers["Content-Type"] == "application/json"
    ensures "Authorization" in r.headers <==> Storage.TokenKey in items && items[Storage.TokenKey] != ""
    ensures "Authorization" in r.headers ==> r.headers["Authorization"] == "Bearer " + items[Storage.TokenKey]
  {
    Request("GET", "/auth/profile", AuthHeaders(GetAuthToken(items)), None)
  }

  /** `AuthService.getProfile` over the current store, given the response `fetch` resolves to. */
  function GetProfile<T>(items: map<string, string>, response: Response<T>): (r: Exchange<T>)
    ensures r.request == ProfileRequest(items)
    ensures response.Ok? ==> r.outcome == Resolved(response.payload)
    ensures response.NotOk? ==> r.outcome == Rejected("Failed to fetch profile")
  {
    var outcome := match response
      case Ok(payload) => Resolved(payload)
      case NotOk(_) => Rejected(ProfileError);
    Exchange(ProfileRequest(items), outcome)
  }

  /** Login and signup turn the same error body into the same message, except for the fallback. */
  lemma LoginSignupAgree<T>(email: string, password: string, firstName: string, lastName: string, body: ErrorBody)
    ensures Truthy(body.message) ==>
              Login<T>(email, password, NotOk(body)).outcome
              == Signup<T>(firstName, lastName, email, password, NotOk(body)).outcome
    ensures !Truthy(body.message) ==>
              Login<T>(email, password, NotOk(body)).outcome == Rejected(Fallback(LoginOp))
              && Signup<T>(firstName, lastName, email, password, NotOk(body)).outcome == Rejected(Fallback(SignupOp))
  {
  }

  /** Join read from the right, the way ECMAScript's algorithm builds it: the last item appended after a separator. */
  lemma {:induction false} JoinSnoc(items: seq<string>, last: string, sep: string)
    requires items != []
    ensures Join(items + [last], sep) == Join(items, sep) + sep + last
  {
    if |items| == 1 {
      assert items + [last] == [items[0], last];
    } else {
      assert (items + [last])[1..] == items[1..] + [last];
      JoinSnoc(items[1..], last, sep);
    }
  }

  /** Each item with the bullet in front of it. */
  function BulletLines(items: seq<string>): (r: seq<string>)
    ensures |r| == |items|
    ensures forall i :: 0 <= i < |items| ==> r[i] == Bullet + items[i]
  {
    if items == [] then [] else [Bullet + items[0]] + BulletLines(items[1..])
  }

  /**
   * A non-empty list of messages is displayed one per line, each line a bullet and
   * the message.
   */
  lemma {:induction false} BulletedIsOneLinePerMessage(items: seq<string>)
    requires items != []
    ensures Bulleted(items) == Join(BulletLines(items), "\n")
  {
    if |items| > 1 {
      BulletedIsOneLinePerMessage(items[1..]);
      assert BulletLines(items)[1..] == BulletLines(items[1..]);
      assert Bullet + (items[0] + BulletSeparator + Join(items[1..], BulletSeparator))
          == (Bullet + items[0]) + "\n" + (Bullet + Join(items[1..], BulletSeparator));
    }
  }

  /** The empty list is truthy in JavaScript, so it yields a lone bullet rather than the fallback. */
  lemma EmptyListQuirk<T>(email: string, password: string)
    ensures Login<T>(email, password, NotOk(ErrorBody(List([])))).outcome == Rejected("• ")
  {
  }

  /** Every rejected login, signup or profile fetch carries a non-empty message, so the page always shows feedback. */
  lemma RejectionsAreNonEmpty<T>(email: string, password: string, firstName: string, lastName: string,
                                 items: map<string, string>, response: Response<T>)
    ensures Login(email, password, response).outcome.Rejected? ==> Login(email, password, response).outcome.error != ""
    ensures Signup(firstName, lastName, email, password, response).outcome.Rejected? ==>
              Signup(firstName, lastName, email, password, response).outcome.error != ""
    ensures GetProfile(items, response).outcome.Rejected? ==> GetProfile(items, response).outcome.error != ""
  {
  }
}
