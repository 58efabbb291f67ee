/**
 * The authentication form: two flags, `isSignUp` and `isResetting`, select
 * the submit handler, the labels and the fields; the three handlers clear
 * the error and the message and then report the auth service's reply.  The
 * service's replies are inputs.
 */
module Auth {
  import opened Forms

  /** The component's only prop, `userType`, defaults to `"white"`. */
  function EffectiveUserType(prop: Option<string>): (t: string)
    ensures prop.None? ==> t == "white"
    ensures prop.Some? ==> t == prop.value
  {
    prop.GetOr("white")
  }

  /** The two state flags that select what the form does. */
  datatype Mode = Mode(isSignUp: bool, isResetting: bool)

  const InitialMode := Mode(false, false)

  datatype Handler = HandleLogin | HandleSignUp | HandleResetPassword

  /** The form's `onSubmit`: reset if resetting, else sign-up if signing up, else login. */
  function SubmitHandler(m: Mode): (h: Handler)
    ensures h == HandleResetPassword <==> m.isResetting
    ensures h == HandleSignUp <==> m.isSignUp && !m.isResetting
    ensures h == HandleLogin <==> !m.isSignUp && !m.isResetting
  {
    if m.isResetting then HandleResetPassword
    else if m.isSignUp then HandleSignUp
    else HandleLogin
  }

  /** The translation key of the header. */
  function HeaderKey(m: Mode): (key: string)
    ensures key == "reset_password" <==> m.isResetting
    ensures key == "sign_up" <==> m.isSignUp && !m.isResetting
    ensures key == "login" <==> !m.isSignUp && !m.isResetting
  {
    if m.isResetting then "reset_password"
    else if m.isSignUp then "sign_up"
    else "login"
  }

  /** The translation key of the submit button. */
  function ButtonKey(m: Mode): (key: string)
    ensures key == "send_reset_link" <==> m.isResetting
    ensures key == "sign_up" <==> m.isSignUp && !m.isResetting
    ensures key == "login" <==> !m.isSignUp && !m.isResetting
  {
    if m.isResetting then "send_reset_link"
    else if m.isSignUp then "sign_up"
    else "login"
  }

  /** The header and the button change exactly when the handler changes. */
  lemma LabelsFollowHandler(m1: Mode, m2: Mode)
    ensures HeaderKey(m1) == HeaderKey(m2) <==> SubmitHandler(m1) == SubmitHandler(m2)
    ensures ButtonKey(m1) == ButtonKey(m2) <==> SubmitHandler(m1) == SubmitHandler(m2)
  {
    assert "reset_password" != "sign_up" && "reset_password" != "login" && "sign_up" != "login";
    assert "send_reset_link" != "sign_up" && "send_reset_link" != "login";
  }

  datatype IdentifierKind = PhoneNumber | EmailAddress

  /** `isBlue && !isSignUp`: a phone number (text input) or an e-mail address. */
  function IdentifierKindOf(userType: string, m: Mode): (k: IdentifierKind)
    ensures k == PhoneNumber <==> userType == "blue" && !m.isSignUp
  {
    if userType == "blue" && !m.isSignUp then PhoneNumber else EmailAddress
  }

  /** The `type` attribute of the identifier input. */
  function IdentifierInputType(k: IdentifierKind): string {
    match k
    case PhoneNumber => "text"
    case EmailAddress => "email"
  }

  /** Resetting does not change which identifier the form asks for. */
  lemma IdentifierIgnoresResetting(userType: string, m: Mode)
    ensures IdentifierKindOf(userType, m) == IdentifierKindOf(userType, m.(isResetting := !m.isResetting))
  {
  }

  /** The password field is rendered iff the form is not resetting. */
  predicate PasswordShown(m: Mode) {
    !m.isResetting
  }

  /** The identifier input is a text input (for a phone number) iff the user is blue-collar and not signing up; otherwise an e-mail input. */
  lemma IdentifierInputFollowsMode(userType: string, m: Mode)
    ensures IdentifierInputType(IdentifierKindOf(userType, m)) == "text" <==> userType == "blue" && !m.isSignUp
    ensures IdentifierInputType(IdentifierKindOf(userType, m)) == "email" <==> !(userType == "blue" && !m.isSignUp)
  {
  }

  /** The links under the form: "forgot password", "back to login", and the sign-up/login switch. */
  datatype Toggle = ForgotPassword | BackToLogin | SwitchSignUp

  /** Which links are rendered in a mode. */
  function OfferedToggles(m: Mode): (r: set<Toggle>)
    ensures ForgotPassword in r <==> !m.isResetting
    ensures SwitchSignUp in r <==> !m.isResetting
    ensures BackToLogin in r <==> m.isResetting
  {
    if m.isResetting then {BackToLogin} else {ForgotPassword, SwitchSignUp}
  }

  /** The mode after a link is clicked: each link writes one flag. */
  function ModeAfter(m: Mode, t: Toggle): (r: Mode)
    ensures t == ForgotPassword ==> r.isResetting && r.isSignUp == m.isSignUp
    ensures t == BackToLogin ==> !r.isResetting && r.isSignUp == m.isSignUp
    ensures t == SwitchSignUp ==> r.isSignUp == !m.isSignUp && r.isResetting == m.isResetting
  {
    match t
    case ForgotPassword => m.(isResetting := true)
    case BackToLogin => m.(isResetting := false)
    case SwitchSignUp => m.(isSignUp := !m.isSignUp)
  }

  /**
   * The password field follows the links: forgot-password hides it,
   * back-to-login shows it, the sign-up switch leaves it as it was; and it
   * is shown exactly when the form does not submit a reset.
   */
  lemma PasswordFollowsToggles(m: Mode, t: Toggle)
    requires t in OfferedToggles(m)
    ensures t == ForgotPassword ==> !PasswordShown(ModeAfter(m, t))
    ensures t == BackToLogin ==> PasswordShown(ModeAfter(m, t))
    ensures t == SwitchSignUp ==> PasswordShown(ModeAfter(m, t)) == PasswordShown(m)
    ensures PasswordShown(m) <==> SubmitHandler(m) != HandleResetPassword
  {
  }

  /** "Forgot password" then "back to login" returns to the mode it started from, sign-up included. */
  lemma ForgotThenBackRestores(m: Mode)
    requires ForgotPassword in OfferedToggles(m)
    ensures BackToLogin in OfferedToggles(ModeAfter(m, ForgotPassword))
    ensures ModeAfter(ModeAfter(m, ForgotPassword), BackToLogin) == m
  {
  }

  /** Password reset is reachable straight from sign-up mode, and back-to-login returns to sign-up. */
  lemma ResetReachableFromSignUp()
    ensures ForgotPassword in OfferedToggles(Mode(true, false))
    ensures SubmitHandler(ModeAfter(Mode(true, false), ForgotPassword)) == HandleResetPassword
    ensures SubmitHandler(ModeAfter(ModeAfter(Mode(true, false), ForgotPassword), BackToLogin)) == HandleSignUp
  {
  }

  /** Two clicks on the sign-up/login switch return to the mode it started from. */
  lemma SwitchTwiceRestores(m: Mode)
    requires SwitchSignUp in OfferedToggles(m)
    ensures SwitchSignUp in OfferedToggles(ModeAfter(m, SwitchSignUp))
    ensures ModeAfter(ModeAfter(m, SwitchSignUp), SwitchSignUp) == m
  {
  }

  /** Where a successful login goes for the signed-in user's `user_metadata.type`. */
  function LandingPath(t: Option<string>): (p: string)
    ensures p == "/whitecollar" <==> t == Some("white")
    ensures p == "/bluecollar" <==> t == Some("blue")
    ensures p == "/dashboard" <==> t == Some("company")
    ensures p == "/home" <==> t != Some("white") && t != Some("blue") && t != Some("company")
  {
    if t == Some("white") then "/whitecollar"
    else if t == Some("blue") then "/bluecollar"
    else if t == Some("company") then "/dashboard"
    else "/home"
  }

  /** The reply of the `blue_users` lookup by phone: an error, or the row's `email` if it has one. */
  datatype PhoneLookup = LookupError | LookupRow(email: Option<string>)

  /** The reply of the password sign-in: its error message, or the user's `user_metadata.type`. */
  datatype SignInReply = SignInError(message: string) | SignedIn(metadataType: Option<string>)

  /** The reply of the sign-up and of the reset e-mail request. */
  datatype Reply = Failed(message: string) | Succeeded

  /** The error `handleLogin` throws for a phone with no usable e-mail (its translation key). */
  const InvalidPhone := "invalid_phone"

  /** What `handleLogin` ends with: the error shown, the e-mail it signed in with (if it tried), and where it went. */
  datatype LoginOutcome = LoginOutcome(error: string, signInEmail: Option<string>, navigateTo: Option<string>)

  /** `!data?.email` is false: the lookup found a row with a non-empty e-mail. */
  predicate LookupHasEmail(lookup: PhoneLookup) {
    lookup.LookupRow? && lookup.email.Some? && lookup.email.value != ""
  }

  /** The body of `handleLogin` after the flags are cleared. */
  function LoginFlow(isBlue: bool, identifier: string, lookup: PhoneLookup, signIn: SignInReply): (r: LoginOutcome)
    ensures isBlue && !LookupHasEmail(lookup) ==> r == LoginOutcome(InvalidPhone, None, None)
    ensures !isBlue ==> r.signInEmail == Some(identifier)
    ensures isBlue && LookupHasEmail(lookup) ==> r.signInEmail == lookup.email
    ensures r.navigateTo.Some? <==> r.signInEmail.Some? && signIn.SignedIn?
    ensures r.navigateTo.Some? ==> r.error == "" && r.navigateTo.value == LandingPath(signIn.metadataType)
    ensures r.signInEmail.Some? && signIn.SignInError? ==> r.error == signIn.message
  {
    var email: Option<string> :=
      if !isBlue then Some(identifier)
      else if LookupHasEmail(lookup) then lookup.email
      else None;
    if email.None? then LoginOutcome(InvalidPhone, None, None)
    else
      match signIn
      case SignInError(msg) => LoginOutcome(msg, email, None)
      case SignedIn(t) => LoginOutcome("", email, Some(LandingPath(t)))
  }

  /** What `handleSignUp` sends: the identifier as e-mail, the password, and metadata type `"white"`. */
  datatype SignUpRequest = SignUpRequest(email: string, password: string, metadataType: string)

  const CheckEmailConfirmation := "check_email_confirmation"
  const PasswordResetSent := "password_reset_sent"

  /** The state of the form component (`useState` hooks); `userType` is its prop. */
  class AuthForm {
    const userType: string
    var identifier: string
    var password: string
    var isSignUp: bool
    var isResetting: bool
    var message: string
    var error: string

    function CurrentMode(): Mode
      reads this
    {
      Mode(isSignUp, isResetting)
    }

    constructor(userTypeProp: Option<string>)
      ensures userType == EffectiveUserType(userTypeProp)
      ensures identifier == "" && password == ""
      ensures CurrentMode() == InitialMode
      ensures message == "" && error == ""
    {
      userType := EffectiveUserType(userTypeProp);
      identifier, password := "", "";
      isSignUp, isResetting := false, false;
      message, error := "", "";
    }

    /** The identifier input's `onChange`. */
    method EnterIdentifier(v: string)
      modifies this
      ensures identifier == v
      ensures password == old(password) && CurrentMode() == old(CurrentMode())
      ensures message == old(message) && error == old(error)
    {
      identifier := v;
    }

    /** The password input's `onChange`. */
    method EnterPassword(v: string)
      modifies this
      ensures password == v
      ensures identifier == old(identifier) && CurrentMode() == old(CurrentMode())
      ensures message == old(message) && error == old(error)
    {
      password := v;
    }

    /**
     * A click on one of the links under the form.  Only the sign-up/login
     * switch clears the error and the message.
     */
    method ClickToggle(t: Toggle)
      requires t in OfferedToggles(CurrentMode())
      modifies this
      ensures CurrentMode() == ModeAfter(old(CurrentMode()), t)
      ensures t == SwitchSignUp ==> error == "" && message == ""
      ensures t != SwitchSignUp ==> error == old(error) && message == old(message)
      ensures identifier == old(identifier) && password == old(password)
    {
      match t
      case ForgotPassword =>
        isResetting := true;
      case BackToLogin =>
        isResetting := false;
      case SwitchSignUp =>
        isSignUp := !isSignUp;
        error := "";
        message := "";
    }

    /** `handleLogin`: the phone lookup (for a blue user) and the sign-in reply are inputs. */
    method Login(lookup: PhoneLookup, signIn: SignInReply) returns (navigateTo: Option<string>)
      modifies this
      ensures error == LoginFlow(userType == "blue", old(identifier), lookup, signIn).error
      ensures navigateTo == LoginFlow(userType == "blue", old(identifier), lookup, signIn).navigateTo
      ensures message == ""
      ensures identifier == old(identifier) && password == old(password) && CurrentMode() == old(CurrentMode())
    {
      error := "";
      message := "";
      var outcome := LoginFlow(userType == "blue", identifier, lookup, signIn);
      error := outcome.error;
      navigateTo := outcome.navigateTo;
    }

    /** `handleSignUp`: the request always carries metadata type `"white"`, whatever `userType` is. */
    method SignUp(reply: Reply) returns (request: SignUpRequest)
      modifies this
      ensures request == SignUpRequest(old(identifier), old(password), "white")
      ensures reply.Succeeded? ==> error == "" && message == CheckEmailConfirmation
      ensures reply.Failed? ==> error == reply.message && message == ""
      ensures identifier == old(identifier) && password == old(password) && CurrentMode() == old(CurrentMode())
    {
      error := "";
      message := "";
      request := SignUpRequest(identifier, password, "white");
      match reply
      case Failed(msg) =>
        error := msg;
      case Succeeded =>
        message := CheckEmailConfirmation;
    }

    /** `handleResetPassword`: asks for a reset e-mail for the identifier. */
    method ResetPassword(reply: Reply) returns (resetFor: string)
      modifies this
      ensures resetFor == old(identifier)
      ensures reply.Succeeded? ==> error == "" && message == PasswordResetSent
      ensures reply.Failed? ==> error == reply.message && message == ""
      ensures identifier == old(identifier) && password == old(password) && CurrentMode() == old(CurrentMode())
    {
      error := "";
      message := "";
      resetFor := identifier;
      match reply
      case Failed(msg) =>
        error := msg;
      case Succeeded =>
        message := PasswordResetSent;
    }

    /**
     * The form's `onSubmit`: runs the handler the mode selects, with that
     * handler's outcome; only a login can navigate, only a sign-up sends a
     * sign-up request, and only a reset asks for a reset e-mail.
     */
    method Submit(lookup: PhoneLookup, signIn: SignInReply, signUp: Reply, reset: Reply)
      returns (handler: Handler, navigateTo: Option<string>, signUpRequest: Option<SignUpRequest>, resetFor: Option<string>)
      modifies this
      ensures handler == SubmitHandler(old(CurrentMode()))
      ensures handler == HandleLogin ==>
        navigateTo == LoginFlow(userType == "blue", old(identifier), lookup, signIn).navigateTo
        && error == LoginFlow(userType == "blue", old(identifier), lookup, signIn).error
        && message == ""
      ensures handler != HandleLogin ==> navigateTo.None?
      ensures handler == HandleSignUp ==>
        signUpRequest == Some(SignUpRequest(old(identifier), old(password), "white"))
        && error == (if signUp.Failed? then signUp.message else "")
        && message == (if signUp.Succeeded? then CheckEmailConfirmation else "")
      ensures handler != HandleSignUp ==> signUpRequest.None?
      ensures handler == HandleResetPassword ==>
        resetFor == Some(old(identifier))
        && error == (if reset.Failed? then reset.message else "")
        && message == (if reset.Succeeded? then PasswordResetSent else "")
      ensures handler != HandleResetPassword ==> resetFor.None?
      ensures identifier == old(identifier) && password == old(password) && CurrentMode() == old(CurrentMode())
    {
      handler := SubmitHandler(CurrentMode());
      navigateTo, signUpRequest, resetFor := None, None, None;
      match handler
      case HandleLogin =>
        navigateTo := Login(lookup, signIn);
      case HandleSignUp =>
        var request := SignUp(signUp);
        signUpRequest := Some(request);
      case HandleResetPassword =>
        var target := ResetPassword(reset);
        resetFor := Some(target);
    }
  }
}
