/** The sign-in form of src/components/logIn.jsx: two fields, a loading flag
    and an error line; a 200 reply stores the token, marks the session
    authenticated and navigates to the product page. */
module LoginModel {
  import opened Common
  import opened SessionModel

  datatype LoginField = Email | Password

  /** The form's `formData`, which is also the request body. */
  datatype Credentials = Credentials(email: string, password: string)

  const LoginFailed := "Login failed. Please try again."
  const ProductsRoute := "/products"
  const LoginPath := "/api/auth/login"

  /** `{ ...formData, [name]: value }`: the named field changes, the other
      keeps its value. */
  function WithCredential(c: Credentials, f: LoginField, v: string): (r: Credentials)
    ensures f == Email ==> r.email == v && r.password == c.password
    ensures f == Password ==> r.password == v && r.email == c.email
  {
    match f
    case Email => c.(email := v)
    case Password => c.(password := v)
  }

  /** The value `localStorage.setItem("token", response.data.token)` stores:
      the body's token, or the text "undefined" when there is none (storage
      coerces the missing value to a string). */
  function StoredTokenText(body: Option<Body>): (t: string)
    ensures body.Some? && body.value.token.Some? ==> t == body.value.token.value
    ensures body.None? || body.value.token.None? ==> t == "undefined"
  {
    if body.Some? && body.value.token.Some? then body.value.token.value else "undefined"
  }

  /** What a settled login request does to the session and the form. */
  datatype LoginEffect = SignIn(token: string) | NoChange | ShowError(message: string)

  /** Only a 200 reply signs in; any other 2xx reply changes nothing; every
      rejection shows the server's `error` text or the fixed message, which
      is never empty. */
  function LoginEffectOf(reply: ServerReply): (e: LoginEffect)
    ensures e.SignIn? <==> reply.Reply? && reply.status == 200
    ensures e.ShowError? <==> Settle(reply, AnySuccess).Rejected?
    ensures e.SignIn? ==> e.token == StoredTokenText(reply.body)
    ensures e.ShowError? ==> e.message != "" && e.message == ServerErrorOr(Settle(reply, AnySuccess), LoginFailed)
  {
    var settled := Settle(reply, AnySuccess);
    match settled
    case Resolved(r) => if r.status == 200 then SignIn(StoredTokenText(r.body)) else NoChange
    case Rejected(_, _) => ShowError(ServerErrorOr(settled, LoginFailed))
  }

  class LoginForm {
    var formData: Credentials
    var loading: bool
    var error: string
    /** The route the form last navigated to, if any. */
    var navigatedTo: Option<string>
    const session: Session

    constructor (session: Session)
      ensures formData == Credentials("", "") && !loading && error == ""
      ensures navigatedTo == None && this.session == session
    {
      formData := Credentials("", "");
      loading := false;
      error := "";
      navigatedTo := None;
      this.session := session;
    }

    method HandleChange(f: LoginField, value: string)
      modifies this
      ensures formData == WithCredential(old(formData), f, value)
      ensures loading == old(loading) && error == old(error) && navigatedTo == old(navigatedTo)
    {
      formData := WithCredential(formData, f, value);
    }

    /** The start of the submit handler, before the request is awaited. */
    method BeginSubmit()
      modifies this
      ensures loading && error == ""
      ensures formData == old(formData) && navigatedTo == old(navigatedTo)
    {
      loading := true;
      error := "";
    }

    /** The rest of the submit handler once the request settles, `finally`
        included. */
    method FinishSubmit(reply: ServerReply)
      modifies this, session
      ensures !loading && formData == old(formData)
      ensures
        match LoginEffectOf(reply)
        case SignIn(token) =>
          && session.storedToken == Some(token) && session.isAuthenticated
          && navigatedTo == Some(ProductsRoute) && error == old(error)
        case NoChange =>
          && session.storedToken == old(session.storedToken) && session.isAuthenticated == old(session.isAuthenticated)
          && navigatedTo == old(navigatedTo) && error == old(error)
        case ShowError(message) =>
          && session.storedToken == old(session.storedToken) && session.isAuthenticated == old(session.isAuthenticated)
          && navigatedTo == old(navigatedTo) && error == message
    {
      var settled := Settle(reply, AnySuccess);
      if settled.Resolved? {
        if settled.response.status == 200 {
          session.storedToken := Some(StoredTokenText(settled.response.body));
          session.isAuthenticated := true;
          navigatedTo := Some(ProductsRoute);
        }
      } else {
        error := ServerErrorOr(settled, LoginFailed);
      }
      loading := false;
    }

    /** The whole submit handler: the form data is posted as the body to
        the sign-in path. */
    method HandleSubmit(reply: ServerReply) returns (path: string, sent: Credentials)
      modifies this, session
      ensures path == LoginPath
      ensures sent == old(formData) && formData == old(formData) && !loading
      ensures
        match LoginEffectOf(reply)
        case SignIn(token) =>
          session.storedToken == Some(token) && session.isAuthenticated
          && navigatedTo == Some(ProductsRoute) && error == ""
        case NoChange =>
          session.storedToken == old(session.storedToken) && session.isAuthenticated == old(session.isAuthenticated)
          && navigatedTo == old(navigatedTo) && error == ""
        case ShowError(message) =>
          session.storedToken == old(session.storedToken) && session.isAuthenticated == old(session.isAuthenticated)
          && navigatedTo == old(navigatedTo) && error == message
    {
      BeginSubmit();
      path, sent := LoginPath, formData;
      FinishSubmit(reply);
    }
  }
}
