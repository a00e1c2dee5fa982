/** The authentication state the forms and the dashboard share: the flag the
    application's auth context holds and the token kept in the browser's
    local storage under the key "token". */
module SessionModel {
  import opened Common

  class Session {
    /** `localStorage["token"]`; None when the key is absent. */
    var storedToken: Option<string>
    var isAuthenticated: bool

    /** The provider's starting state is not part of this model, so both
        parts are given. */
    constructor (stored: Option<string>, authenticated: bool)
      ensures storedToken == stored && isAuthenticated == authenticated
    {
      storedToken := stored;
      isAuthenticated := authenticated;
    }
  }
}
