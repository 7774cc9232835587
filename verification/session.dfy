/**
 * The browser state the pages share: the `access_token` entry of
 * `localStorage` and the route the Next.js router is on. Both pages write
 * them through `localStorage.setItem`/`removeItem` and `router.push`.
 */
module Session {
  import opened Js

  /** The login screen. */
  const LoginRoute := "/"
  /** Where a successful login goes. */
  const DashboardRoute := "/dashboard"

  class Browser {
    /** `localStorage.getItem('access_token')`: None when the key is absent. */
    var accessToken: Option<string>
    /** The path the router was last pushed to. */
    var route: string

    constructor(accessToken: Option<string>, route: string)
      ensures this.accessToken == accessToken && this.route == route
    {
      this.accessToken := accessToken;
      this.route := route;
    }

    /** `localStorage.setItem('access_token', token)`. */
    method StoreToken(token: string)
      modifies this`accessToken
      ensures accessToken == Some(token)
    {
      accessToken := Some(token);
    }

    /** `localStorage.removeItem('access_token')`. */
    method RemoveToken()
      modifies this`accessToken
      ensures accessToken == None
    {
      accessToken := None;
    }

    /** `router.push(path)`. */
    method Push(path: string)
      modifies this`route
      ensures route == path
    {
      route := path;
    }
  }
}
