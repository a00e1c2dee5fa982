/** The registration form of src/components/registationForm.jsx: four fields,
    a loading flag, an error line and a success line. It has no access to the
    session: registering never signs anyone in. */
module RegisterModel {
  import opened Common

  datatype RegisterField = Name | Email | Mobile | Password

  /** The form's `formData`, which is also the request body. */
  datatype Registration = Registration(name: string, email: string, mobile: string, password: string)

  const EmptyRegistration := Registration("", "", "", "")
  const RegisterFailed := "Registration failed. Please try again."
  const RegisterSucceeded := "Registration successful!"
  const RegisterPath := "/api/auth/register"

  function FieldOf(r: Registration, f: RegisterField): string {
    match f
    case Name => r.name
    case Email => r.email
    case Mobile => r.mobile
    case Password => r.password
  }

  /** `{ ...formData, [name]: value }`: the named field changes and the
      other three keep their values. */
  function WithRegisterField(r: Registration, f: RegisterField, v: string): (t: Registration)
    ensures FieldOf(t, f) == v
    ensures forall g :: g != f ==> FieldOf(t, g) == FieldOf(r, g)
  {
    match f
    case Name => r.(name := v)
    case Email => r.(email := v)
    case Mobile => r.(mobile := v)
    case Password => r.(password := v)
  }

  /** What a settled registration request does to the form. */
  datatype RegisterEffect = Registered | NoChange | ShowError(message: string)

  /** Only a 201 reply registers; any other 2xx reply changes nothing; every
      rejection shows the server's `error` text or the fixed message, which
      is never empty. */
  function RegisterEffectOf(reply: ServerReply): (e: RegisterEffect)
    ensures e.Registered? <==> reply.Reply? && reply.status == 201
    ensures e.ShowError? <==> Settle(reply, AnySuccess).Rejected?
    ensures e.ShowError? ==> e.message != "" && e.message == ServerErrorOr(Settle(reply, AnySuccess), RegisterFailed)
  {
    var settled := Settle(reply, AnySuccess);
    match settled
    case Resolved(r) => if r.status == 201 then Registered else NoChange
    case Rejected(_, _) => ShowError(ServerErrorOr(settled, RegisterFailed))
  }

  class RegisterForm {
    var formData: Registration
    var loading: bool
    var error: string
    var success: string

    constructor ()
      ensures formData == EmptyRegistration && !loading && error == "" && success == ""
    {
      formData := EmptyRegistration;
      loading := false;
      error := "";
      success := "";
    }

    method HandleChange(f: RegisterField, value: string)
      modifies this
      ensures formData == WithRegisterField(old(formData), f, value)
      ensures loading == old(loading) && error == old(error) && success == old(success)
    {
      formData := WithRegisterField(formData, f, value);
    }

    /** The start of the submit handler, before the request is awaited. */
    method BeginSubmit()
      modifies this
      ensures loading && error == "" && success == ""
      ensures formData == old(formData)
    {
      loading := true;
      error := "";
      success := "";
    }

    /** The rest of the submit handler once the request settles, `finally`
        included. */
    method FinishSubmit(reply: ServerReply)
      modifies this
      ensures !loading
      ensures
        match RegisterEffectOf(reply)
        case Registered =>
          success == RegisterSucceeded && formData == EmptyRegistration && error == old(error)
        case NoChange =>
          success == old(success) && formData == old(formData) && error == old(error)
        case ShowError(message) =>
          success == old(success) && formData == old(formData) && error == message
    {
      var settled := Settle(reply, AnySuccess);
      if settled.Resolved? {
        if settled.response.status == 201 {
          success := RegisterSucceeded;
          formData := EmptyRegistration;
        }
      } else {
        error := ServerErrorOr(settled, RegisterFailed);
      }
      loading := false;
    }

    /** The whole submit handler: the form data is posted as the body to
        the registration path. */
    method HandleSubmit(reply: ServerReply) returns (path: string, sent: Registration)
      modifies this
      ensures path == RegisterPath
      ensures sent == old(formData) && !loading
      ensures
        match RegisterEffectOf(reply)
        case Registered =>
          success == RegisterSucceeded && formData == EmptyRegistration && error == ""
        case NoChange =>
          success == "" && formData == old(formData) && error == ""
        case ShowError(message) =>
          success == "" && formData == old(formData) && error == message
    {
      BeginSubmit();
      path, sent := RegisterPath, formData;
      FinishSubmit(reply);
    }
  }
}
