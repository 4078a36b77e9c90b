/**
 * The sign-in dialog (components/AuthModal.js): the e-mail pattern, the
 * registration checks, the login / register / forgot-password views, and
 * what submitting each form does to the dialog's state. The authentication
 * back end is reached only through the outcome each request is given.
 */
module AuthModal {
  import opened Wrappers
  import opened Text
  import Constants

  /** A character `[^\s@]` accepts. */
  predicate Plain(c: char) {
    !IsJsWhitespace(c) && c != '@'
  }

  /** Every character of `s` is plain. */
  predicate AllPlain(s: string) {
    forall k | 0 <= k < |s| :: Plain(s[k])
  }

  /**
   * What `/^[^\s@]+@[^\s@]+\.[^\s@]+$/` accepts: plain text, an `@` at `at`,
   * plain text, a `.` at `dot`, plain text, each run non-empty.
   */
  predicate MatchesEmailPattern(s: string) {
    exists at, dot | 0 < at && at + 1 < dot < |s| - 1 ::
      && s[at] == '@' && s[dot] == '.'
      && AllPlain(s[..at]) && AllPlain(s[at + 1..dot]) && AllPlain(s[dot + 1..])
  }

  /**
   * `validateEmail(email)`, decided left to right: the first `@` ends a
   * non-empty plain local part, and the rest is plain with a `.` that has
   * text on both sides.
   */
  function ValidateEmail(email: string): bool {
    var at := IndexOf(email, "@");
    && at > 0
    && AllPlain(email[..at])
    && var domain := email[at + 1..];
    && AllPlain(domain)
    && |domain| >= 3
    && Contains(domain[1..|domain| - 1], ".")
  }

  /** A one-character pattern occurs exactly where that character is. */
  lemma OccursAtChar(s: string, c: char, i: int)
    requires 0 <= i < |s|
    ensures OccursAt(s, [c], i) <==> s[i] == c
  {
    assert i + 1 <= |s| ==> s[i..i + 1] == [s[i]];
  }

  /** A slice of plain text is plain. */
  lemma AllPlainSlice(s: string, i: nat, j: nat)
    requires AllPlain(s) && i <= j <= |s|
    ensures AllPlain(s[i..j])
  {
    assert forall k | 0 <= k < j - i :: s[i..j][k] == s[i + k];
  }

  /** Plain text joined around a plain character is plain. */
  lemma AllPlainJoin(a: string, c: char, b: string)
    requires AllPlain(a) && Plain(c) && AllPlain(b)
    ensures AllPlain(a + [c] + b)
  {
    var s := a + [c] + b;
    forall k | 0 <= k < |s| ensures Plain(s[k]) {
      if k < |a| {
        assert s[k] == a[k];
      } else if k > |a| {
        assert s[k] == b[k - |a| - 1];
      }
    }
  }

  /** What the left-to-right decision accepts, the pattern describes. */
  lemma ValidateEmailSound(email: string)
    requires ValidateEmail(email)
    ensures MatchesEmailPattern(email)
  {
    var at := IndexOf(email, "@");
    var domain := email[at + 1..];
    var inner := domain[1..|domain| - 1];
    var p :| 0 <= p <= |inner| - 1 && OccursAt(inner, ".", p);
    OccursAtChar(inner, '.', p);
    OccursAtChar(email, '@', at);
    var dot := at + 2 + p;
    assert email[dot] == inner[p];
    assert email[at + 1..dot] == domain[..p + 1];
    assert email[dot + 1..] == domain[p + 2..];
    AllPlainSlice(domain, 0, p + 1);
    AllPlainSlice(domain, p + 2, |domain|);
    assert 0 < at && at + 1 < dot < |email| - 1 && email[at] == '@' && email[dot] == '.'
      && AllPlain(email[..at]) && AllPlain(email[at + 1..dot]) && AllPlain(email[dot + 1..]);
  }

  /** The first occurrence of a character is where `indexOf` finds it. */
  lemma FirstCharIndex(s: string, c: char, i: nat)
    requires i < |s| && s[i] == c
    requires forall j | 0 <= j < i :: s[j] != c
    ensures IndexOf(s, [c]) == i
  {
    OccursAtChar(s, c, i);
    var r := IndexOf(s, [c]);
    if 0 <= r < i {
      OccursAtChar(s, c, r);
    }
  }

  /** A plain domain with a `.` strictly inside it passes the domain checks. */
  lemma DomainAccepted(domain: string, k: nat)
    requires AllPlain(domain) && 1 <= k < |domain| - 1 && domain[k] == '.'
    ensures |domain| >= 3 && Contains(domain[1..|domain| - 1], ".")
  {
    var inner := domain[1..|domain| - 1];
    assert inner[k - 1] == '.';
    OccursAtChar(inner, '.', k - 1);
  }

  /** The decision accepts a string split as the pattern requires at `at` and `dot`. */
  lemma ValidateEmailAt(email: string, at: nat, dot: nat)
    requires 0 < at && at + 1 < dot < |email| - 1
    requires email[at] == '@' && email[dot] == '.'
    requires AllPlain(email[..at]) && AllPlain(email[at + 1..dot]) && AllPlain(email[dot + 1..])
    ensures ValidateEmail(email)
  {
    assert forall j | 0 <= j < at :: email[j] == email[..at][j];
    FirstCharIndex(email, '@', at);
    var domain := email[at + 1..];
    assert domain == email[at + 1..dot] + [email[dot]] + email[dot + 1..];
    AllPlainJoin(email[at + 1..dot], email[dot], email[dot + 1..]);
    DomainAccepted(domain, dot - at - 1);
  }

  /** What the pattern describes, the left-to-right decision accepts. */
  lemma ValidateEmailComplete(email: string)
    requires MatchesEmailPattern(email)
    ensures ValidateEmail(email)
  {
    var at, dot :| 0 < at && at + 1 < dot < |email| - 1
      && email[at] == '@' && email[dot] == '.'
      && AllPlain(email[..at]) && AllPlain(email[at + 1..dot]) && AllPlain(email[dot + 1..]);
    ValidateEmailAt(email, at, dot);
  }

  /** The left-to-right decision accepts exactly the strings the pattern describes. */
  lemma ValidateEmailMatchesPattern(email: string)
    ensures ValidateEmail(email) <==> MatchesEmailPattern(email)
  {
    if ValidateEmail(email) {
      ValidateEmailSound(email);
    }
    if MatchesEmailPattern(email) {
      ValidateEmailComplete(email);
    }
  }

  /** The four fields of the form (`formData`). */
  datatype FormData = FormData(fullName: string, email: string, password: string, confirmPassword: string)

  /** The empty form. */
  const EmptyForm := FormData("", "", "", "")

  /** The `name` attribute of an input. */
  datatype Field = FullName | Email | Password | ConfirmPassword

  /** `{ ...prev, [name]: value }` */
  function WithField(form: FormData, field: Field, value: string): (r: FormData)
    ensures field == FullName ==> r == form.(fullName := value)
    ensures field == Email ==> r == form.(email := value)
    ensures field == Password ==> r == form.(password := value)
    ensures field == ConfirmPassword ==> r == form.(confirmPassword := value)
  {
    match field
    case FullName => form.(fullName := value)
    case Email => form.(email := value)
    case Password => form.(password := value)
    case ConfirmPassword => form.(confirmPassword := value)
  }

  /** Why a registration is refused before any request is made. */
  datatype RegError = FullNameRequired | InvalidEmail | PasswordTooShort | PasswordMismatch {
    /** The translation key of the error's message. */
    function Key(): string {
      match this
      case FullNameRequired => "errorFullNameRequired"
      case InvalidEmail => "errorInvalidEmail"
      case PasswordTooShort => "errorPasswordLength"
      case PasswordMismatch => "errorPasswordMismatch"
    }
  }

  /**
   * The registration checks, in order: a name that trims to nothing, an
   * e-mail `validateEmail` refuses, a password under six UTF-16 code units, a
   * confirmation that differs. The first failing check is reported
   * (`RegistrationChecks`).
   */
  function RegistrationError(form: FormData): Option<RegError> {
    if Trim(form.fullName) == "" then Some(FullNameRequired)
    else if !ValidateEmail(form.email) then Some(InvalidEmail)
    else if Utf16Length(form.password) < 6 then Some(PasswordTooShort)
    else if form.password != form.confirmPassword then Some(PasswordMismatch)
    else None
  }

  /** Each registration error is reported exactly when its check is the first to fail. */
  lemma RegistrationChecks(form: FormData)
    ensures var r := RegistrationError(form);
      && (r == Some(FullNameRequired) <==> IsBlank(form.fullName))
      && (r == Some(InvalidEmail) <==> !IsBlank(form.fullName) && !MatchesEmailPattern(form.email))
      && (r == Some(PasswordTooShort) <==>
            !IsBlank(form.fullName) && MatchesEmailPattern(form.email) && Utf16Length(form.password) < 6)
      && (r == Some(PasswordMismatch) <==>
            !IsBlank(form.fullName) && MatchesEmailPattern(form.email) && Utf16Length(form.password) >= 6
            && form.password != form.confirmPassword)
      && (r.None? <==>
            !IsBlank(form.fullName) && MatchesEmailPattern(form.email) && Utf16Length(form.password) >= 6
            && form.password == form.confirmPassword)
  {
    TrimEmptyIffBlank(form.fullName);
    ValidateEmailMatchesPattern(form.email);
  }

  /** Every message key the dialog shows is defined in both translation tables. */
  lemma MessageKeysDefined(e: RegError)
    ensures e.Key() in Constants.I18nEnKeys && e.Key() in Constants.I18nArKeys
    ensures "registrationSuccess" in Constants.I18nEnKeys && "registrationSuccess" in Constants.I18nArKeys
    ensures "emailRequiredForReset" in Constants.I18nEnKeys && "emailRequiredForReset" in Constants.I18nArKeys
    ensures "resetLinkSent" in Constants.I18nEnKeys && "resetLinkSent" in Constants.I18nArKeys
  {
  }

  /** `viewState` */
  datatype View = Login | Register | Forgot

  /** The buttons that switch views, and the timer set after a sign-up. */
  datatype ViewAction = ForgotLink | SwitchLink | BackLink | SignUpTimer

  /**
   * The view transitions: the forgot link (login view only) opens the
   * forgot view, the switch link (not in the forgot view) swaps login and
   * register, the back link returns from the forgot view, and the timer
   * returns to login. A button the current view does not show changes nothing.
   */
  function NextView(view: View, action: ViewAction): (r: View)
    ensures action == SignUpTimer ==> r == Login
    ensures view == Login && action == ForgotLink ==> r == Forgot
    ensures view == Login && action == SwitchLink ==> r == Register
    ensures view == Register && action == SwitchLink ==> r == Login
    ensures view == Forgot && action == BackLink ==> r == Login
    ensures r == Forgot ==> view == Forgot || action == ForgotLink
  {
    match action
    case SignUpTimer => Login
    case ForgotLink => if view == Login then Forgot else view
    case SwitchLink =>
      if view == Login then Register else if view == Register then Login else view
    case BackLink => if view == Forgot then Login else view
  }

  /** The register view is reached only from login, through the switch link. */
  lemma RegisterOnlyFromLogin(view: View, action: ViewAction)
    requires NextView(view, action) == Register
    ensures view == Register || (view == Login && action == SwitchLink)
  {
  }

  /** A message line: empty, a translated text by key, or a literal text. */
  datatype Message = NoMessage | Key(key: string) | Text(text: string)

  /** What the back end answered to a request: success, with a user for a sign-in, or an error message. */
  datatype Outcome = Ok(hasUser: bool) | Err(message: string)

  /** The requests the dialog sends to the back end. */
  datatype Request =
    | SignIn(email: string, password: string)
    | SignUp(email: string, password: string, fullName: string)
    | ResetPassword(email: string)
    | GoogleSignIn

  /** The message the dialog shows when the client is missing. */
  const NotConfigured := "Supabase client not configured."

  /** `err.message || "Authentication failed"` */
  function FailureText(message: string): (m: Message)
    ensures m.Text? && m.text != ""
    ensures message != "" ==> m == Text(message)
  {
    Text(if message != "" then message else "Authentication failed")
  }

  /** What one submission does: the requests sent, the two message lines, and whether it closes the dialog or schedules the switch to login. */
  datatype Response = Response(sent: seq<Request>, error: Message, success: Message, closes: bool, switchesToLogin: bool)

  /**
   * `handleSubmit` in the login or register view once the client exists,
   * given the back end's answer to the request it sends, if any.
   */
  function SubmitResponse(view: View, form: FormData, outcome: Outcome): (r: Response)
    requires view != Forgot
    ensures view == Login ==>
      && r.sent == [SignIn(form.email, form.password)] && r.success == NoMessage && !r.switchesToLogin
      && (outcome.Err? ==> r.error == FailureText(outcome.message) && !r.closes)
      && (outcome.Ok? ==> r.error == NoMessage && r.closes == outcome.hasUser)
    ensures view == Register && RegistrationError(form).Some? ==>
      r == Response([], Key(RegistrationError(form).value.Key()), NoMessage, false, false)
    ensures view == Register && RegistrationError(form).None? ==>
      && r.sent == [SignUp(form.email, form.password, form.fullName)] && !r.closes
      && (outcome.Err? ==> r.error == FailureText(outcome.message) && r.success == NoMessage && !r.switchesToLogin)
      && (outcome.Ok? ==> r.error == NoMessage && r.success == Key("registrationSuccess") && r.switchesToLogin)
    ensures |r.sent| <= 1 && (|r.sent| == 0 <==> view == Register && RegistrationError(form).Some?)
    ensures r.closes ==> view == Login && outcome == Ok(true)
    ensures r.success != NoMessage || r.switchesToLogin ==> view == Register && outcome.Ok? && RegistrationError(form).None?
    ensures r.error == NoMessage <==> |r.sent| == 1 && outcome.Ok?
  {
    if view == Login then
      match outcome
      case Err(m) => Response([SignIn(form.email, form.password)], FailureText(m), NoMessage, false, false)
      case Ok(hasUser) => Response([SignIn(form.email, form.password)], NoMessage, NoMessage, hasUser, false)
    else
      var problem := RegistrationError(form);
      assert view == Register;
      if problem.Some? then Response([], Key(problem.value.Key()), NoMessage, false, false)
      else
        var request := SignUp(form.email, form.password, form.fullName);
        match outcome
        case Err(m) => Response([request], FailureText(m), NoMessage, false, false)
        case Ok(_) => Response([request], NoMessage, Key("registrationSuccess"), false, true)
  }

  /** The dialog's state. */
  class Dialog {
    var viewState: View
    var formData: FormData
    var error: Message
    var success: Message
    var isLoading: bool
    /** The requests sent so far, oldest first. */
    var requests: seq<Request>
    /** Whether `onClose` has been called. */
    var closeRequested: bool
    /** Whether the two-second timer back to the login view is running. */
    var loginSwitchPending: bool
    /** Whether the authentication client exists. */
    const supabaseConfigured: bool

    /** The first render. */
    constructor (supabaseConfigured: bool)
      ensures viewState == Login && formData == EmptyForm && error == NoMessage && success == NoMessage
      ensures !isLoading && requests == [] && !closeRequested && !loginSwitchPending
      ensures this.supabaseConfigured == supabaseConfigured
    {
      viewState := Login;
      formData := EmptyForm;
      error := NoMessage;
      success := NoMessage;
      isLoading := false;
      requests := [];
      closeRequested := false;
      loginSwitchPending := false;
      this.supabaseConfigured := supabaseConfigured;
    }

    /** The effect run when the dialog opens: messages and form cleared, login view. */
    method Open()
      modifies this
      ensures viewState == Login && formData == EmptyForm && error == NoMessage && success == NoMessage
      ensures isLoading == old(isLoading) && requests == old(requests)
      ensures closeRequested == old(closeRequested) && loginSwitchPending == old(loginSwitchPending)
    {
      error := NoMessage;
      success := NoMessage;
      formData := EmptyForm;
      viewState := Login;
    }

    /** `handleInputChange`: only the named field changes. */
    method InputChange(field: Field, value: string)
      modifies this
      ensures formData == WithField(old(formData), field, value)
      ensures viewState == old(viewState) && error == old(error) && success == old(success)
      ensures isLoading == old(isLoading) && requests == old(requests)
      ensures closeRequested == old(closeRequested) && loginSwitchPending == old(loginSwitchPending)
    {
      formData := WithField(formData, field, value);
    }

    /** A view button, or the timer set after a sign-up. */
    method ChangeView(action: ViewAction)
      requires action == SignUpTimer ==> loginSwitchPending
      modifies this
      ensures viewState == NextView(old(viewState), action)
      ensures loginSwitchPending == (old(loginSwitchPending) && action != SignUpTimer)
      ensures formData == old(formData) && error == old(error) && success == old(success)
      ensures isLoading == old(isLoading) && requests == old(requests) && closeRequested == old(closeRequested)
    {
      viewState := NextView(viewState, action);
      if action == SignUpTimer {
        loginSwitchPending := false;
      }
    }

    /**
     * `handleSubmit` in the login or register view; `outcome` is the back
     * end's answer if a request is sent. Without a client only the error is
     * set; otherwise the submission's response is applied and loading ends.
     */
    method Submit(outcome: Outcome)
      requires viewState != Forgot
      modifies this
      ensures viewState == old(viewState) && formData == old(formData)
      ensures !supabaseConfigured ==>
        && error == Text(NotConfigured) && success == old(success) && isLoading == old(isLoading)
        && requests == old(requests) && closeRequested == old(closeRequested)
        && loginSwitchPending == old(loginSwitchPending)
      ensures supabaseConfigured ==>
        var r := SubmitResponse(old(viewState), old(formData), outcome);
        && requests == old(requests) + r.sent
        && error == r.error && success == r.success && !isLoading
        && closeRequested == (old(closeRequested) || r.closes)
        && loginSwitchPending == (old(loginSwitchPending) || r.switchesToLogin)
    {
      if !supabaseConfigured {
        error := Text(NotConfigured);
        return;
      }
      var r := SubmitResponse(viewState, formData, outcome);
      requests := requests + r.sent;
      error := r.error;
      success := r.success;
      closeRequested := closeRequested || r.closes;
      loginSwitchPending := loginSwitchPending || r.switchesToLogin;
      isLoading := false;
    }

    /**
     * `handleForgotPassword`, the forgot view's submit: nothing without a
     * client, an error and no request without an e-mail, otherwise one
     * reset request whose outcome sets the success or the error line.
     */
    method ForgotPassword(outcome: Outcome)
      requires viewState == Forgot
      modifies this
      ensures viewState == old(viewState) && formData == old(formData)
      ensures closeRequested == old(closeRequested) && loginSwitchPending == old(loginSwitchPending)
      ensures !supabaseConfigured ==>
        error == old(error) && success == old(success) && isLoading == old(isLoading) && requests == old(requests)
      ensures supabaseConfigured && formData.email == "" ==>
        && error == Key("emailRequiredForReset") && success == old(success)
        && isLoading == old(isLoading) && requests == old(requests)
      ensures supabaseConfigured && formData.email != "" ==>
        && requests == old(requests) + [ResetPassword(formData.email)] && !isLoading
        && (outcome.Ok? ==> error == NoMessage && success == Key("resetLinkSent"))
        && (outcome.Err? ==> error == Text(outcome.message) && success == NoMessage)
    {
      if !supabaseConfigured {
        return;
      }
      if formData.email == "" {
        error := Key("emailRequiredForReset");
        return;
      }
      isLoading := true;
      error := NoMessage;
      success := NoMessage;
      requests := requests + [ResetPassword(formData.email)];
      match outcome {
        case Ok(_) =>
          success := Key("resetLinkSent");
        case Err(m) =>
          error := Text(m);
      }
      isLoading := false;
    }

    /**
     * `handleGoogleLogin`: the error line only changes on failure; a success
     * leaves the page for the provider, which is not modelled.
     */
    method GoogleLogin(outcome: Outcome)
      modifies this
      ensures viewState == old(viewState) && formData == old(formData) && success == old(success)
      ensures isLoading == old(isLoading) && closeRequested == old(closeRequested)
      ensures loginSwitchPending == old(loginSwitchPending)
      ensures !supabaseConfigured ==> error == Text(NotConfigured) && requests == old(requests)
      ensures supabaseConfigured ==>
        && requests == old(requests) + [GoogleSignIn]
        && error == (if outcome.Err? then Text(outcome.message) else old(error))
    {
      if !supabaseConfigured {
        error := Text(NotConfigured);
        return;
      }
      requests := requests + [GoogleSignIn];
      if outcome.Err? {
        error := Text(outcome.message);
      }
    }
  }
}
