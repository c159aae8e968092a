/**
 The sign-in form's submit handler (`handleSubmit` of the `Login` component).

 Every external step is an oracle whose settled outcome is an input: the
 schema validation of the form, the two `fetch` calls and the two
 `response.json()` calls. The handler is modelled as the sequence of
 effects it performs, in program order: React state updates, requests
 sent, the call to the auth store's `setAuth`, and navigation.
 */
module Login {
  import opened Js

  /** What `loginSchema.parse(formData)` returns when the form's email and password are valid. */
  datatype Credentials = Credentials(email: string, password: string)

  /** The status part of a `fetch` response. */
  datatype Response = Response(ok: bool, statusText: string)

  /** The settled outcome of every external step one submission can reach. */
  datatype Oracles = Oracles(
    validation: Outcome<Credentials>,  // loginSchema.parse(formData)
    loginFetch: Outcome<Response>,     // fetch('/api/auth/login', ...)
    loginJson: Outcome<JsonObject>,    // response.json() on that response
    meFetch: Outcome<Response>,        // fetch('/api/auth/me', ...)
    meJson: Outcome<JsonObject>)       // userResponse.json()

  /** An outgoing HTTP request: method (`verb`), URL, headers and URL-encoded form body, all in order. */
  datatype Request = Request(verb: string, url: string, headers: seq<(string, string)>, form: seq<(string, string)>)

  /** The identity handed to the auth store. */
  datatype Identity = Identity(id: Field, email: Field, name: Field)

  /** One observable step of the handler. */
  datatype Effect =
    | PreventDefault                    // e.preventDefault(): the browser does not submit the form itself
    | SetError(error: Option<string>)   // setError
    | SetLoading(loading: bool)         // setIsLoading
    | Send(request: Request)            // fetch
    | SetAuth(user: Identity, token: Field)
    | Navigate(path: string)

  const LoginUrl: string := "/api/auth/login"
  const ProfileUrl: string := "/api/auth/me"
  const ChatPath: string := "/chat"
  const ProfileFailure: string := "Failed to get user information"
  const UnexpectedFailure: string := "An unexpected error occurred"

  /** The OAuth2 password-grant request: the email travels under the form field `username`. */
  function LoginRequest(c: Credentials): Request {
    Request("POST", LoginUrl,
            [("Content-Type", "application/x-www-form-urlencoded")],
            [("username", c.email), ("password", c.password)])
  }

  /** The profile request, authorised by the access token as a bearer credential. */
  function ProfileRequest(token: Field): Request {
    Request("GET", ProfileUrl, [("Authorization", "Bearer " + Render(token))], [])
  }

  /** The identity built from the profile body: `email` falls back to `username`, which is also the name. */
  function IdentityOf(profile: JsonObject): Identity {
    Identity(Get(profile, "id"), Or(Get(profile, "email"), Get(profile, "username")), Get(profile, "username"))
  }

  /**
   The message of the error thrown for a rejected sign-in: the body's
   `detail` (as `new Error` converts it to a string) when truthy, otherwise
   the status text. An unreadable body counts as `{}`.
   */
  function LoginFailure(body: Outcome<JsonObject>, statusText: string): string {
    var detail := match body
      case Ok(obj) => Get(obj, "detail")
      case Throws(_) => Undefined;
    Render(Or(detail, Str("Login failed: " + statusText)))
  }

  /** What the `catch` block shows for a thrown value. */
  function ErrorText(t: Thrown): string {
    match t
    case ErrorObject(message) => message
    case NonError => UnexpectedFailure
  }

  /** The token the sign-in response body carries: its `access_token`, once that body has been read. */
  function TokenOf(o: Oracles): Field {
    match o.loginJson
    case Ok(data) => Get(data, "access_token")
    case Throws(_) => Undefined
  }

  /** The effects of the `try` block, and the value that ends it early, if any. */
  datatype Attempt = Attempt(effects: seq<Effect>, raised: Option<Thrown>)

  /** The body of the `try` block. */
  function TryBlock(o: Oracles): Attempt {
    var start := [SetLoading(true)];
    match o.validation
    case Throws(e) => Attempt(start, Some(e))
    case Ok(creds) =>
      var sent := start + [Send(LoginRequest(creds))];
      match o.loginFetch
      case Throws(e) => Attempt(sent, Some(e))
      case Ok(response) =>
        if !response.ok then
          Attempt(sent, Some(ErrorObject(LoginFailure(o.loginJson, response.statusText))))
        else
          match o.loginJson
          case Throws(e) => Attempt(sent, Some(e))
          case Ok(_) =>
            var token := TokenOf(o);
            var asked := sent + [Send(ProfileRequest(token))];
            match o.meFetch
            case Throws(e) => Attempt(asked, Some(e))
            case Ok(userResponse) =>
              if !userResponse.ok then
                Attempt(asked, Some(ErrorObject(ProfileFailure)))
              else
                match o.meJson
                case Throws(e) => Attempt(asked, Some(e))
                case Ok(userData) =>
                  Attempt(asked + [SetAuth(IdentityOf(userData), token), Navigate(ChatPath)], None)
  }

  /** The `catch` block: nothing when the `try` block ran to its end, otherwise show what it threw. */
  function CatchBlock(raised: Option<Thrown>): seq<Effect> {
    match raised
    case None => []
    case Some(e) => [SetError(Some(ErrorText(e)))]
  }

  /**
   The whole handler: cancel the browser's own form submission, clear the
   error, run the `try` block, report what it threw, and always stop loading.
   */
  function HandleSubmit(o: Oracles): seq<Effect> {
    var attempt := TryBlock(o);
    [PreventDefault, SetError(None)] + attempt.effects + CatchBlock(attempt.raised) + [SetLoading(false)]
  }

  /** Every external step succeeded: the only way the `try` block runs to its end. */
  predicate AllSucceed(o: Oracles) {
    && o.validation.Ok?
    && o.loginFetch.Ok? && o.loginFetch.value.ok
    && o.loginJson.Ok?
    && o.meFetch.Ok? && o.meFetch.value.ok
    && o.meJson.Ok?
  }

  /** The sign-in request was answered with a usable token body, so the profile request goes out. */
  predicate TokenReceived(o: Oracles) {
    && o.validation.Ok?
    && o.loginFetch.Ok? && o.loginFetch.value.ok
    && o.loginJson.Ok?
  }
}
