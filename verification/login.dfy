/**
 * The login screen (`app/page.js`): `handleSubmit` validates the two fields,
 * posts them to the authentication endpoint, stores the issued token and
 * moves to the dashboard, or shows one of two fixed error messages.
 */
module Login {
  import opened Js
  import opened Session

  const FillAllFields := "Por favor, preencha todos os campos"
  const InvalidCredentials := "Credenciais inválidas"

  /** The `data` of a response to the login POST. */
  datatype LoginBody =
    | NullBody                                 // `response.data` is null: reading `access_token` throws
    | Body(accessToken: Option<string>)        // `response.data.access_token`, None when absent

  /** What the POST would come back with; read only when a request is made. */
  datatype LoginResponse =
    | RequestFailed                            // the request rejects (network error, non-2xx status)
    | Responded(body: LoginBody)

  /** The state `handleSubmit` leaves behind, and whether it made the request. */
  datatype SubmitResult = SubmitResult(
    error: string, loading: bool, token: Option<string>, route: string, posted: bool)

  /** The response carries a token the page will store (`if (response.data.access_token)`). */
  predicate IssuesToken(response: LoginResponse) {
    response.Responded? && response.body.Body? && IsTruthyOpt(response.body.accessToken)
  }

  /** The request ends in the `catch` branch. */
  predicate Throws(response: LoginResponse) {
    response.RequestFailed? || response.body.NullBody?
  }

  /**
   * The outcome of one submit, from the fields, the server's answer and the
   * stored token and route before it. The previous error message is not an
   * input: every submit starts by clearing it.
   */
  function Submit(email: string, password: string, response: LoginResponse,
                  token: Option<string>, route: string): (r: SubmitResult)
    // loading is off again on every path
    ensures !r.loading
    // a request is made exactly when both fields are filled in
    ensures r.posted <==> email != "" && password != ""
    // empty fields: fixed message, no request, storage and route untouched
    ensures !r.posted ==> r.error == FillAllFields && r.token == token && r.route == route
    // a request that throws: fixed message, no token stored, no navigation
    ensures r.posted && Throws(response) ==>
              r.error == InvalidCredentials && r.token == token && r.route == route
    // an answer that does not throw leaves no error behind, whatever the old message was
    ensures r.posted && !Throws(response) ==> r.error == ""
    // the token and the route change only together, to the issued token and the dashboard
    ensures r.posted && IssuesToken(response) ==>
              r.token == response.body.accessToken && r.route == DashboardRoute
    ensures !(r.posted && IssuesToken(response)) ==> r.token == token && r.route == route
  {
    if email == "" || password == "" then
      SubmitResult(FillAllFields, false, token, route, false)
    else
      match response
      case RequestFailed => SubmitResult(InvalidCredentials, false, token, route, true)
      case Responded(NullBody) => SubmitResult(InvalidCredentials, false, token, route, true)
      case Responded(Body(t)) =>
        if IsTruthyOpt(t) then SubmitResult("", false, t, DashboardRoute, true)
        else SubmitResult("", false, token, route, true)
  }

  class LoginPage {
    var email: string
    var password: string
    var error: string
    var loading: bool

    /** The `useState` initial values. */
    constructor()
      ensures email == "" && password == "" && error == "" && !loading
    {
      email, password, error, loading := "", "", "", false;
    }

    /** The email input's `onChange`. */
    method SetEmail(value: string)
      modifies this`email
      ensures email == value
    {
      email := value;
    }

    /** The password input's `onChange`. */
    method SetPassword(value: string)
      modifies this`password
      ensures password == value
    {
      password := value;
    }

    /**
     * `handleSubmit`: the sequence of state updates, with the POST's outcome
     * as a parameter. Returns whether the POST was made.
     */
    method HandleSubmit(browser: Browser, response: LoginResponse) returns (posted: bool)
      modifies this`error, this`loading, browser
      ensures var r := Submit(email, password, response, old(browser.accessToken), old(browser.route));
              && error == r.error && loading == r.loading && posted == r.posted
              && browser.accessToken == r.token && browser.route == r.route
      ensures email == old(email) && password == old(password)
    {
      loading := true;
      error := "";
      if email == "" || password == "" {
        error := FillAllFields;
        loading := false;
        return false;
      }
      posted := true;
      match response {
        case RequestFailed =>
          error := InvalidCredentials;
        case Responded(NullBody) =>
          error := InvalidCredentials;
        case Responded(Body(t)) =>
          if IsTruthyOpt(t) {
            browser.StoreToken(t.value);
            browser.Push(DashboardRoute);
          }
      }
      loading := false;
    }
  }
}
