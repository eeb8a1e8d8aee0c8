/** The sign-in modal: a five-step wizard (log in, register, enter the e-mailed code,
    choose a display name, choose an avatar) whose handlers post to the `/auth` endpoints and move
    between steps according to the answer. */
module AuthModal {
  import opened Common

  datatype Step = Login | Register | Verify | OnboardProfile | OnboardAvatar

  /** The numeric constants `STEP_LOGIN` … `STEP_ONBOARD_AVATAR`. */
  function Code(s: Step): (n: int)
    ensures 0 <= n <= 4
  {
    match s
    case Login => 0
    case Register => 1
    case Verify => 2
    case OnboardProfile => 3
    case OnboardAvatar => 4
  }

  /** The step a number stands for, if any. */
  function StepOf(n: int): (s: Option<Step>)
    ensures s.Some? <==> 0 <= n <= 4
  {
    if n == 0 then Some(Login)
    else if n == 1 then Some(Register)
    else if n == 2 then Some(Verify)
    else if n == 3 then Some(OnboardProfile)
    else if n == 4 then Some(OnboardAvatar)
    else None
  }

  /** The five constants are distinct: every step has its own code and every code in
      0..4 names exactly one step. */
  lemma CodesAreDistinct(s: Step, n: int)
    ensures StepOf(Code(s)) == Some(s)
    ensures StepOf(n).Some? ==> Code(StepOf(n).value) == n
  {
  }

  /** What the server answered to `POST /auth/login`: the `token` and `username` of the
      body on success (either may be missing), and `err.response?.data` on failure. */
  datatype LoginOutcome =
    | LoginOk(token: Option<string>, username: Option<string>)
    | LoginFailed(data: Option<string>)

  /** `POST /auth/register`: `res.data.userId` on success, and on failure
      `err.response?.data?.[0]?.description`. */
  datatype RegisterOutcome =
    | RegisterOk(userId: Option<string>)
    | RegisterFailed(description: Option<string>)

  /** `POST /auth/verify-email`: the `token` and `username` of the answer on success. */
  datatype VerifyOutcome =
    | VerifyOk(token: Option<string>, username: Option<string>)
    | VerifyFailed

  /** The calls the modal makes into the auth context, in order. `login` is called with
      three arguments (token, username, and whether to close the modal); the context's
      own `login` takes one, so what the extra two do is left open here. */
  datatype ContextCall =
    | LoginCall(token: Option<string>, username: Option<string>, closeModal: bool)
    | CloseModalCall

  /** The request bodies the handlers send. `file` identifies the chosen image. */
  datatype Request =
    | LoginRequest(username: string, password: string)
    | RegisterRequest(username: string, email: string, password: string)
    | VerifyRequest(userId: Option<string>, token: string)
    | ProfileRequest(displayName: string)
    | AvatarRequest(file: string)

  const LoginFailedMessage := "Login failed"
  const RegistrationFailedMessage := "Registration failed"
  const InvalidCodeMessage := "Invalid code."
  const SaveFailedMessage := "Failed to save name."
  const UploadFailedMessage := "Upload failed."

  /** The `modalType` value that opens the modal on the register step. */
  const RegisterModalType := "REGISTER"

  /** Whether the context has been told that someone signed in without closing the
      modal — what a successful verification does before onboarding starts. */
  predicate SignedInForOnboarding(calls: seq<ContextCall>)
  {
    exists c | c in calls :: c.LoginCall? && !c.closeModal
  }

  /** The component's state between events. `userId` is `None` where the register
      answer had no `userId` (React then holds `undefined`). */
  class AuthModalState {
    var step: Step
    var loading: bool
    var error: string
    var username: string
    var password: string
    var email: string
    var userId: Option<string>
    var verificationCode: string
    var displayName: string
    var avatarFile: Option<string>
    var calls: seq<ContextCall>

    /** Between events nothing is loading, and the onboarding steps are only reached
        once the context has been told about a sign-in that keeps the modal open. */
    ghost predicate Valid()
      reads this
    {
      && !loading
      && (step == OnboardProfile || step == OnboardAvatar ==> SignedInForOnboarding(calls))
    }

    /** The initial state of every `useState`. */
    constructor ()
      ensures Valid()
      ensures step == Login && !loading && error == ""
      ensures username == "" && password == "" && email == "" && userId == Some("")
      ensures verificationCode == "" && displayName == "" && avatarFile == None && calls == []
    {
      step := Login;
      loading := false;
      error := "";
      username := "";
      password := "";
      email := "";
      userId := Some("");
      verificationCode := "";
      displayName := "";
      avatarFile := None;
      calls := [];
    }

    /** Rendering with the context's `modalType`: nothing is drawn while it is falsy;
        otherwise the login step turns into the register step when the modal was
        opened for registering, nothing is loading and no username has been typed. */
    method Render(modalType: Option<string>) returns (drawn: bool)
      requires Valid()
      modifies this
      ensures Valid()
      ensures drawn <==> Truthy(modalType)
      ensures step == (if drawn && old(step) == Login && modalType == Some(RegisterModalType)
                          && !old(loading) && old(username) == ""
                       then Register else old(step))
      ensures loading == old(loading) && error == old(error) && username == old(username)
      ensures password == old(password) && email == old(email) && userId == old(userId)
      ensures verificationCode == old(verificationCode) && displayName == old(displayName)
      ensures avatarFile == old(avatarFile) && calls == old(calls)
    {
      drawn := Truthy(modalType);
      if drawn && step == Login && modalType == Some(RegisterModalType) && !loading && username == "" {
        step := Register;
      }
    }

    /** "Join Club" on the login step. */
    method JoinClub()
      requires Valid() && step == Login
      modifies this
      ensures Valid() && step == Register
      ensures loading == old(loading) && error == old(error) && username == old(username)
      ensures password == old(password) && email == old(email) && userId == old(userId)
      ensures verificationCode == old(verificationCode) && displayName == old(displayName)
      ensures avatarFile == old(avatarFile) && calls == old(calls)
    {
      step := Register;
    }

    /** "Login" on the register step. */
    method BackToLogin()
      requires Valid() && step == Register
      modifies this
      ensures Valid() && step == Login
      ensures loading == old(loading) && error == old(error) && username == old(username)
      ensures password == old(password) && email == old(email) && userId == old(userId)
      ensures verificationCode == old(verificationCode) && displayName == old(displayName)
      ensures avatarFile == old(avatarFile) && calls == old(calls)
    {
      step := Login;
    }

    /** Typing in the username field. */
    method SetUsername(value: string)
      requires Valid()
      modifies this
      ensures Valid() && username == value
      ensures step == old(step) && loading == old(loading) && error == old(error)
      ensures password == old(password) && email == old(email) && userId == old(userId)
      ensures verificationCode == old(verificationCode) && displayName == old(displayName)
      ensures avatarFile == old(avatarFile) && calls == old(calls)
    {
      username := value;
    }

    /** The file input's `change` on the avatar step: `e.target.files[0]`, which is
        `undefined` (`None`) when the file list is empty, as after a cancelled picker. */
    method ChooseAvatar(file: Option<string>)
      requires Valid()
      modifies this
      ensures Valid() && avatarFile == file
      ensures step == old(step) && loading == old(loading) && error == old(error)
      ensures username == old(username) && password == old(password) && email == old(email)
      ensures userId == old(userId) && verificationCode == old(verificationCode)
      ensures displayName == old(displayName) && calls == old(calls)
    {
      avatarFile := file;
    }

    /** The close button in the corner, on every step: it only asks the context to
        close the modal. Every field of the form is left as it was. */
    method Close()
      requires Valid()
      modifies this
      ensures Valid() && calls == old(calls) + [CloseModalCall]
      ensures step == old(step) && loading == old(loading) && error == old(error)
      ensures username == old(username) && password == old(password) && email == old(email)
      ensures userId == old(userId) && verificationCode == old(verificationCode)
      ensures displayName == old(displayName) && avatarFile == old(avatarFile)
    {
      calls := calls + [CloseModalCall];
      assert old(calls) <= calls;
    }

    /** `handleLogin`: clear the error, post the credentials; on success call `login`
        asking it to close the modal and stay on the login step, on failure show the
        server's message or "Login failed". Loading ends false either way. */
    method HandleLogin(outcome: LoginOutcome) returns (sent: Request)
      requires Valid() && step == Login
      modifies this
      ensures Valid()
      ensures sent == LoginRequest(old(username), old(password))
      ensures step == Login && !loading
      ensures outcome.LoginOk? ==>
                error == "" && calls == old(calls) + [LoginCall(outcome.token, outcome.username, true)]
      ensures outcome.LoginFailed? ==>
                error == OrElse(outcome.data, LoginFailedMessage) && calls == old(calls)
      ensures username == old(username) && password == old(password) && email == old(email)
      ensures userId == old(userId) && verificationCode == old(verificationCode)
      ensures displayName == old(displayName) && avatarFile == old(avatarFile)
    {
      loading := true;
      error := "";
      sent := LoginRequest(username, password);
      match outcome {
        case LoginOk(token, name) =>
          calls := calls + [LoginCall(token, name, true)];
          step := Login;
        case LoginFailed(data) =>
          error := OrElse(data, LoginFailedMessage);
      }
      loading := false;
    }

    /** `handleRegister`: clear the error, post the account; on success keep the
        returned `userId` and go to the code step, on failure stay and show the first
        error's description or "Registration failed". */
    method HandleRegister(outcome: RegisterOutcome) returns (sent: Request)
      requires Valid() && step == Register
      modifies this
      ensures Valid()
      ensures sent == RegisterRequest(old(username), old(email), old(password))
      ensures !loading
      ensures outcome.RegisterOk? ==> step == Verify && userId == outcome.userId && error == ""
      ensures outcome.RegisterFailed? ==>
                && step == Register && userId == old(userId)
                && error == OrElse(outcome.description, RegistrationFailedMessage)
      ensures username == old(username) && password == old(password) && email == old(email)
      ensures verificationCode == old(verificationCode) && displayName == old(displayName)
      ensures avatarFile == old(avatarFile) && calls == old(calls)
    {
      loading := true;
      error := "";
      sent := RegisterRequest(username, email, password);
      match outcome {
        case RegisterOk(id) =>
          userId := id;
          step := Verify;
        case RegisterFailed(description) =>
          error := OrElse(description, RegistrationFailedMessage);
      }
      loading := false;
    }

    /** `handleVerify`: clear the error, post the stored `userId` with the typed code;
        on success call `login` asking it to keep the modal open and go to the name
        step, on failure stay with "Invalid code.". */
    method HandleVerify(outcome: VerifyOutcome) returns (sent: Request)
      requires Valid() && step == Verify
      modifies this
      ensures Valid()
      ensures sent == VerifyRequest(old(userId), old(verificationCode))
      ensures !loading
      ensures outcome.VerifyOk? ==>
                && step == OnboardProfile && error == ""
                && calls == old(calls) + [LoginCall(outcome.token, outcome.username, false)]
      ensures outcome.VerifyFailed? ==>
                step == Verify && error == InvalidCodeMessage && calls == old(calls)
      ensures username == old(username) && password == old(password) && email == old(email)
      ensures userId == old(userId) && verificationCode == old(verificationCode)
      ensures displayName == old(displayName) && avatarFile == old(avatarFile)
    {
      loading := true;
      error := "";
      sent := VerifyRequest(userId, verificationCode);
      match outcome {
        case VerifyOk(token, name) =>
          calls := calls + [LoginCall(token, name, false)];
          assert calls[|calls| - 1] == LoginCall(token, name, false);
          step := OnboardProfile;
        case VerifyFailed =>
          error := InvalidCodeMessage;
      }
      loading := false;
    }

    /** `handleSaveProfile`: put the display name; on success go to the avatar step, on
        failure stay with "Failed to save name.". Unlike the handlers before it, it
        does not clear an earlier error. */
    method HandleSaveProfile(saved: bool) returns (sent: Request)
      requires Valid() && step == OnboardProfile
      modifies this
      ensures Valid()
      ensures sent == ProfileRequest(old(displayName))
      ensures !loading
      ensures saved ==> step == OnboardAvatar && error == old(error)
      ensures !saved ==> step == OnboardProfile && error == SaveFailedMessage
      ensures username == old(username) && password == old(password) && email == old(email)
      ensures userId == old(userId) && verificationCode == old(verificationCode)
      ensures displayName == old(displayName) && avatarFile == old(avatarFile) && calls == old(calls)
    {
      loading := true;
      sent := ProfileRequest(displayName);
      if saved {
        step := OnboardAvatar;
      } else {
        error := SaveFailedMessage;
      }
      loading := false;
    }

    /** `handleAvatarUpload(skip)`: skipping finishes onboarding at once (the context's
        `closeModal`); without a chosen file nothing happens; otherwise the file is
        uploaded and onboarding finishes on success, or "Upload failed." is shown. */
    method HandleAvatarUpload(skip: bool, uploaded: bool) returns (sent: Option<Request>)
      requires Valid() && step == OnboardAvatar
      modifies this
      ensures Valid()
      ensures skip ==> sent == None && calls == old(calls) + [CloseModalCall] && error == old(error)
      ensures !skip && old(avatarFile).None? ==> sent == None && calls == old(calls) && error == old(error)
      ensures !skip && old(avatarFile).Some? ==> sent == Some(AvatarRequest(old(avatarFile).value))
      ensures !skip && old(avatarFile).Some? && uploaded ==>
                calls == old(calls) + [CloseModalCall] && error == old(error)
      ensures !skip && old(avatarFile).Some? && !uploaded ==>
                calls == old(calls) && error == UploadFailedMessage
      ensures step == OnboardAvatar && !loading
      ensures username == old(username) && password == old(password) && email == old(email)
      ensures userId == old(userId) && verificationCode == old(verificationCode)
      ensures displayName == old(displayName) && avatarFile == old(avatarFile)
    {
      if skip {
        calls := calls + [CloseModalCall];
        return None;
      }
      if avatarFile.None? {
        return None;
      }
      loading := true;
      sent := Some(AvatarRequest(avatarFile.value));
      if uploaded {
        calls := calls + [CloseModalCall];
      } else {
        error := UploadFailedMessage;
      }
      loading := false;
    }
  }

  /** Signing up through the modal, as the contracts above describe it: register, enter
      the code, save a name and skip the avatar. The verification posts the `userId`
      the register answer carried, and the context sees one sign-in that keeps the
      modal open followed by one `closeModal`. */
  method SignUpScenario(id: string, token: string)
  {
    var modal := new AuthModalState();
    var drawn := modal.Render(Some(RegisterModalType));
    assert drawn && modal.step == Register;
    var r1 := modal.HandleRegister(RegisterOk(Some(id)));
    assert modal.step == Verify;
    var r2 := modal.HandleVerify(VerifyOk(Some(token), None));
    assert r2 == VerifyRequest(Some(id), "");
    assert modal.step == OnboardProfile;
    var r3 := modal.HandleSaveProfile(true);
    assert modal.step == OnboardAvatar;
    var r4 := modal.HandleAvatarUpload(true, false);
    assert modal.calls == [LoginCall(Some(token), None, false), CloseModalCall];
    assert modal.error == "";
  }
}
