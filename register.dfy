/**
 * RegisterComponent (src/app/components/register/register.component.ts): an
 * ordered check of the sign-up form that gates one register request.
 */
module Register {
  import opened Wrappers
  import opened Models
  import opened Auth
  import opened Messages
  import Text

  const FillAllMessage := "Por favor, preencha todos os campos."
  const MismatchMessage := "As senhas não coincidem."
  const RegisterFailedMessage := "Erro ao criar conta. Tente novamente."
  const AdminRoute := "/admin"

  predicate AnyEmpty(d: RegisterRequest)
  {
    d.name == "" || d.email == "" || d.password == "" || d.passwordConfirmation == ""
  }

  /** The first complaint about the form, or none when it may be sent. */
  function Validate(d: RegisterRequest): (complaint: Option<string>)
  {
    if AnyEmpty(d) then Some(FillAllMessage)
    else if d.password != d.passwordConfirmation then Some(MismatchMessage)
    else None
  }

  /**
   * The form is accepted exactly when all four fields are filled and the two
   * passwords agree; an empty field is reported even when the passwords differ.
   */
  lemma ValidationOrder(d: RegisterRequest)
    ensures Validate(d) == None
      <==> d.name != "" && d.email != "" && d.password != "" && d.passwordConfirmation != ""
           && d.password == d.passwordConfirmation
    ensures AnyEmpty(d) ==> Validate(d) == Some(FillAllMessage)
    ensures !AnyEmpty(d) && d.password != d.passwordConfirmation ==> Validate(d) == Some(MismatchMessage)
  {
  }

  class RegisterComponent {
    var registerData: RegisterRequest
    var loading: bool
    var errorMessage: string
    /** Router navigations, oldest first. */
    var navigations: seq<string>
    const auth: AuthService

    constructor (auth: AuthService)
      ensures this.auth == auth
      ensures registerData == RegisterRequest("", "", "", "")
      ensures !loading && errorMessage == "" && navigations == []
    {
      this.auth := auth;
      registerData := RegisterRequest("", "", "", "");
      loading := false;
      errorMessage := "";
      navigations := [];
    }

    /** Submit: either a complaint and no request, or exactly one register request. */
    method OnSubmit()
      modifies this, auth
      ensures registerData == old(registerData) && navigations == old(navigations)
      ensures auth.State() == old(auth.State())
      ensures Validate(registerData).Some? ==>
        errorMessage == Validate(registerData).value && loading == old(loading) && auth.sent == old(auth.sent)
      ensures Validate(registerData).None? ==>
        loading && errorMessage == "" && auth.sent == old(auth.sent) + [RegisterCall(registerData)]
    {
      if registerData.name == "" || registerData.email == ""
         || registerData.password == "" || registerData.passwordConfirmation == "" {
        errorMessage := FillAllMessage;
        return;
      }
      if registerData.password != registerData.passwordConfirmation {
        errorMessage := MismatchMessage;
        return;
      }
      loading := true;
      errorMessage := "";
      auth.Register(registerData);
    }

    /** A reply: the service's tap runs first, then the form leaves for the console on success. */
    method OnRegisterReply(r: AuthResponse)
      modifies this, auth
      ensures auth.State() == AfterAuthReply(old(auth.State()), r) && auth.sent == old(auth.sent)
      ensures !loading && errorMessage == old(errorMessage) && registerData == old(registerData)
      ensures navigations == old(navigations) + if r.status == SuccessStatus then [AdminRoute] else []
    {
      auth.OnRegisterReply(r);
      loading := false;
      if r.status == SuccessStatus {
        navigations := navigations + [AdminRoute];
      }
    }

    /** A failed request: the backend's explanation, flattened field errors first. */
    method OnRegisterError(err: ErrorBody)
      modifies this
      ensures !loading && errorMessage == ErrorMessage(err, RegisterFailedMessage)
      ensures registerData == old(registerData) && navigations == old(navigations)
    {
      loading := false;
      errorMessage :=
        if err.message.Some? && err.message.value != "" then err.message.value else RegisterFailedMessage;
      if err.errors.Some? {
        errorMessage := Text.Join(Flatten(err.errors.value), Separator);
      }
    }
  }
}
