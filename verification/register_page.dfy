/** The stand-alone sign-up page: a register form, then a form for the code sent by
    e-mail, which on success leads to the login page. */
module RegisterPage {
  import opened Common

  datatype RegistrationStep = RegisterStep | VerifyStep

  /** The `formData` object, posted unchanged as the register body. */
  datatype FormData = FormData(username: string, email: string, password: string)

  /** The body of `POST /auth/verify-email`; `userId` is `None` while it is `null`. */
  datatype VerifyBody = VerifyBody(userId: Option<string>, token: string)

  /** What `POST /auth/register` answered: `response.data.userId` on success and
      `err.response?.data?.message` on failure. */
  datatype RegisterOutcome =
    | Registered(userId: Option<string>)
    | RegisterRejected(message: Option<string>)

  const RegisterFailedMessage := "Registration failed. Try again."
  const InvalidTokenMessage := "Invalid token. Please check your email and try again."
  const LoginPath := "/login"

  /** The page's state. `navigatedTo` records a call of `navigate`. */
  class RegisterFlow {
    var step: RegistrationStep
    var formData: FormData
    var verificationCode: string
    var userId: Option<string>
    var isLoading: bool
    var error: string
    var navigatedTo: Option<string>

    /** Between events nothing is loading, and the page has left only for the login
        page, and only from the code step. */
    ghost predicate Valid()
      reads this
    {
      && !isLoading
      && (navigatedTo.Some? ==> navigatedTo == Some(LoginPath))
    }

    constructor ()
      ensures Valid()
      ensures step == RegisterStep && formData == FormData("", "", "") && verificationCode == ""
      ensures userId == None && !isLoading && error == "" && navigatedTo == None
    {
      step := RegisterStep;
      formData := FormData("", "", "");
      verificationCode := "";
      userId := None;
      isLoading := false;
      error := "";
      navigatedTo := None;
    }

    /** Typing in one of the three register inputs (`{...formData, field: value}`). */
    method EditForm(data: FormData)
      requires Valid()
      modifies this
      ensures Valid() && formData == data
      ensures step == old(step) && verificationCode == old(verificationCode) && userId == old(userId)
      ensures isLoading == old(isLoading) && error == old(error) && navigatedTo == old(navigatedTo)
    {
      formData := data;
    }

    /** Typing in the code input. */
    method EditCode(code: string)
      requires Valid()
      modifies this
      ensures Valid() && verificationCode == code
      ensures step == old(step) && formData == old(formData) && userId == old(userId)
      ensures isLoading == old(isLoading) && error == old(error) && navigatedTo == old(navigatedTo)
    {
      verificationCode := code;
    }

    /** `handleRegister`: clear the error, post the form as it is; on success keep the
        answer's `userId` and show the code form, on failure stay and show the server's
        message or the fixed fallback. Loading ends false either way. */
    method HandleRegister(outcome: RegisterOutcome) returns (sent: FormData)
      requires Valid() && step == RegisterStep
      modifies this
      ensures Valid()
      ensures sent == old(formData)
      ensures outcome.Registered? ==> step == VerifyStep && userId == outcome.userId && error == ""
      ensures outcome.RegisterRejected? ==>
                && step == RegisterStep && userId == old(userId)
                && error == OrElse(outcome.message, RegisterFailedMessage)
      ensures !isLoading
      ensures formData == old(formData) && verificationCode == old(verificationCode)
      ensures navigatedTo == old(navigatedTo)
    {
      error := "";
      isLoading := true;
      sent := formData;
      match outcome {
        case Registered(id) =>
          userId := id;
          step := VerifyStep;
        case RegisterRejected(message) =>
          error := OrElse(message, RegisterFailedMessage);
      }
      isLoading := false;
    }

    /** `handleVerify`: clear the error, post exactly the stored `userId` and the typed
        code; on success go to the login page, on failure stay on the code step with
        the fixed message. */
    method HandleVerify(verified: bool) returns (sent: VerifyBody)
      requires Valid() && step == VerifyStep
      modifies this
      ensures Valid()
      ensures sent == VerifyBody(old(userId), old(verificationCode))
      ensures verified ==> navigatedTo == Some(LoginPath) && error == ""
      ensures !verified ==> navigatedTo == old(navigatedTo) && error == InvalidTokenMessage
      ensures step == VerifyStep && !isLoading
      ensures formData == old(formData) && verificationCode == old(verificationCode)
      ensures userId == old(userId)
    {
      error := "";
      isLoading := true;
      sent := VerifyBody(userId, verificationCode);
      if verified {
        navigatedTo := Some(LoginPath);
      } else {
        error := InvalidTokenMessage;
      }
      isLoading := false;
    }

    /** "Back to Register": only the step changes, so the typed form is still there. */
    method BackToRegister()
      requires Valid() && step == VerifyStep
      modifies this
      ensures Valid() && step == RegisterStep
      ensures formData == old(formData) && verificationCode == old(verificationCode)
      ensures userId == old(userId) && isLoading == old(isLoading) && error == old(error)
      ensures navigatedTo == old(navigatedTo)
    {
      step := RegisterStep;
    }
  }

  /** A sign-up as the contracts above describe it: the code is checked against the
      `userId` the register answer carried, even after going back and registering
      again, and a rejected code leaves the page where it was. */
  method SignUpScenario(first: string, second: string, code: string)
  {
    var page := new RegisterFlow();
    page.EditForm(FormData("ada", "ada@example.org", "secret"));
    var body := page.HandleRegister(Registered(Some(first)));
    assert body == FormData("ada", "ada@example.org", "secret");
    page.BackToRegister();
    assert page.formData == FormData("ada", "ada@example.org", "secret");
    var again := page.HandleRegister(Registered(Some(second)));
    page.EditCode(code);
    var rejected := page.HandleVerify(false);
    assert rejected == VerifyBody(Some(second), code);
    assert page.step == VerifyStep && page.navigatedTo == None && page.error == InvalidTokenMessage;
    var accepted := page.HandleVerify(true);
    assert page.navigatedTo == Some(LoginPath) && page.error == "";
  }
}
