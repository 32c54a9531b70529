/**
 * The sign-in screen (app/login.tsx): the form guards of handleSubmit, the
 * request it sends to the auth service, how it reacts to the outcome, and
 * the login/signup toggle. The awaited auth call is split in two steps: a
 * press that runs the guards and issues the request, and the settling of
 * that request with an outcome given as a parameter. Alerts are a log.
 */
module Login {
  import opened Text

  datatype AuthMode = LoginMode | SignupMode

  /** The profile data sent with a signup; age None is the null sent for an empty field. */
  datatype Profile = Profile(fullName: string, age: Option<string>, career: string, semester: string)

  datatype AuthRequest =
    | SignIn(email: string, password: string)
    | SignUp(email: string, password: string, profile: Profile)

  /** What the awaited auth call ends with. */
  datatype AuthOutcome =
    | Rejected(message: string)
    | Accepted(hasSession: bool)
    | Threw(reason: Option<string>)

  datatype LoginAlert = LoginAlert(title: string, message: string)

  datatype Field = EmailField | PasswordField | FullNameField | AgeField | CareerField | SemesterField

  datatype LoginState = LoginState(
    mode: AuthMode,
    email: string, password: string,
    fullName: string, age: string, career: string, semester: string,
    loading: bool,
    inFlight: Option<AuthRequest>,
    requests: seq<AuthRequest>,
    alerts: seq<LoginAlert>)

  const ERROR_TITLE: string := "Error"
  const MISSING_FIELDS: string := "Completa todos los campos"
  const NAME_AND_CAREER: string := "Nombre y carrera son obligatorios para crear la cuenta."
  const SIGNUP_TITLE: string := "Cuenta creada"
  const SIGNUP_MESSAGE: string := "Revisa tu correo para confirmar la cuenta antes de iniciar sesión."
  const UNEXPECTED_TITLE: string := "Error inesperado"
  const UNEXPECTED_MESSAGE: string := "Intenta de nuevo"

  function Initial(): (s: LoginState)
    ensures s.mode == LoginMode && !s.loading && s.requests == [] && s.alerts == []
  {
    LoginState(LoginMode, "", "", "", "", "", "", false, None, [], [])
  }

  /** A request is in flight exactly while loading, and it is the last one sent. */
  ghost predicate Valid(s: LoginState) {
    && (s.loading <==> s.inFlight.Some?)
    && (s.inFlight.Some? ==> s.requests != [] && s.inFlight.value == s.requests[|s.requests| - 1])
  }

  /** The alert the guards raise, if any. */
  function GuardAlert(s: LoginState): (a: Option<LoginAlert>)
    ensures a.None? <==> (s.email != "" && s.password != "" && (s.mode != SignupMode || (s.fullName != "" && s.career != "")))
  {
    if s.email == "" || s.password == "" then Some(LoginAlert(ERROR_TITLE, MISSING_FIELDS))
    else if s.mode == SignupMode && (s.fullName == "" || s.career == "") then Some(LoginAlert(ERROR_TITLE, NAME_AND_CAREER))
    else None
  }

  /** The request the form sends in its current mode. */
  function RequestFor(s: LoginState): (r: AuthRequest)
    ensures r.SignIn? <==> s.mode == LoginMode
    ensures r.email == s.email && r.password == s.password
    ensures r.SignUp? ==> (r.profile.age.None? <==> s.age == "")
  {
    if s.mode == LoginMode then SignIn(s.email, s.password)
    else SignUp(s.email, s.password, Profile(s.fullName, if s.age == "" then None else Some(s.age), s.career, s.semester))
  }

  /** A press of the submit button, which is disabled while loading. */
  function Submit(s: LoginState): (r: LoginState)
    ensures s.loading ==> r == s
  {
    if s.loading then s
    else match GuardAlert(s)
      case Some(a) => s.(alerts := s.alerts + [a])
      case None =>
        var req := RequestFor(s);
        s.(loading := true, inFlight := Some(req), requests := s.requests + [req])
  }

  /** The awaited call returns: report the outcome and clear loading on every path. */
  function Settle(s: LoginState, outcome: AuthOutcome): (r: LoginState)
    requires s.inFlight.Some?
    ensures !r.loading && r.inFlight.None? && r.requests == s.requests
  {
    var done := s.(loading := false, inFlight := None);
    match outcome
      case Rejected(message) => done.(alerts := s.alerts + [LoginAlert(ERROR_TITLE, message)])
      case Threw(reason) =>
        var message := if reason.Some? then reason.value else UNEXPECTED_MESSAGE;
        done.(alerts := s.alerts + [LoginAlert(UNEXPECTED_TITLE, message)])
      case Accepted(hasSession) =>
        if s.inFlight.value.SignUp? && !hasSession then
          done.(alerts := s.alerts + [LoginAlert(SIGNUP_TITLE, SIGNUP_MESSAGE)], mode := LoginMode, password := "")
        else done
  }

  /** A press of the toggle below the button, which is disabled while loading. */
  function Toggle(s: LoginState): (r: LoginState)
    ensures s.loading ==> r == s
  {
    if s.loading then s
    else s.(mode := if s.mode == LoginMode then SignupMode else LoginMode)
  }

  /** onChangeText on one of the inputs. */
  function Edit(s: LoginState, field: Field, text: string): LoginState {
    match field
      case EmailField => s.(email := text)
      case PasswordField => s.(password := text)
      case FullNameField => s.(fullName := text)
      case AgeField => s.(age := text)
      case CareerField => s.(career := text)
      case SemesterField => s.(semester := text)
  }

  // ---------------------------------------------------------------------
  // Properties of the screen.

  /** An empty email or password raises the alert and sends nothing, in either mode. */
  lemma MissingCredentials(s: LoginState)
    requires !s.loading && (s.email == "" || s.password == "")
    ensures Submit(s) == s.(alerts := s.alerts + [LoginAlert(ERROR_TITLE, MISSING_FIELDS)])
  {
  }

  /** A signup without a name or a career raises its alert and sends nothing. */
  lemma SignupNeedsNameAndCareer(s: LoginState)
    requires !s.loading && s.mode == SignupMode && s.email != "" && s.password != ""
    requires s.fullName == "" || s.career == ""
    ensures Submit(s) == s.(alerts := s.alerts + [LoginAlert(ERROR_TITLE, NAME_AND_CAREER)])
  {
  }

  /**
   * A press sends a request exactly when email and password are filled and,
   * in signup mode, name and career too; age and semester are never checked.
   */
  lemma SubmitSendsIff(s: LoginState)
    requires !s.loading
    ensures var r := Submit(s);
      && (r.requests != s.requests <==>
            s.email != "" && s.password != "" && (s.mode == LoginMode || (s.fullName != "" && s.career != "")))
      && (r.requests != s.requests ==> r.requests == s.requests + [RequestFor(s)] && r.loading && r.alerts == s.alerts)
      && (r.requests == s.requests ==> !r.loading && |r.alerts| == |s.alerts| + 1)
  {
    var r := Submit(s);
    if GuardAlert(s).None? {
      assert r.requests[|s.requests|] == RequestFor(s);
      assert |r.requests| == |s.requests| + 1;
    }
  }

  /** In login mode the extra fields change neither what is checked nor what is sent. */
  lemma LoginIgnoresProfileFields(s: LoginState, fullName: string, age: string, career: string, semester: string)
    requires s.mode == LoginMode
    ensures var t := s.(fullName := fullName, age := age, career := career, semester := semester);
      && Submit(t).requests == Submit(s).requests
      && Submit(t).alerts == Submit(s).alerts
      && (Submit(s).requests != s.requests ==> Submit(s).requests == s.requests + [SignIn(s.email, s.password)])
  {
  }

  /** The signup payload carries null for an empty age and the age text otherwise. */
  lemma SignupAge(s: LoginState)
    requires s.mode == SignupMode
    ensures RequestFor(s).profile.age == (if s.age == "" then None else Some(s.age))
  {
  }

  /**
   * A signup accepted without a session reports it, switches to login mode
   * and clears the password; the email and the other fields are kept.
   */
  lemma SignupWithoutSession(s: LoginState)
    requires s.inFlight.Some? && s.inFlight.value.SignUp?
    ensures var r := Settle(s, Accepted(false));
      && r.mode == LoginMode && r.password == ""
      && r.email == s.email && r.fullName == s.fullName && r.age == s.age
      && r.career == s.career && r.semester == s.semester
      && r.alerts == s.alerts + [LoginAlert(SIGNUP_TITLE, SIGNUP_MESSAGE)]
  {
  }

  /** Any other success leaves the form as it was, for the redirect to take over. */
  lemma AcceptedLeavesForm(s: LoginState, hasSession: bool)
    requires s.inFlight.Some? && (s.inFlight.value.SignIn? || hasSession)
    ensures Settle(s, Accepted(hasSession)) == s.(loading := false, inFlight := None)
  {
  }

  /** An error, thrown or returned, is reported and the form stays in its mode. */
  lemma FailureReported(s: LoginState, outcome: AuthOutcome)
    requires s.inFlight.Some? && !outcome.Accepted?
    ensures var r := Settle(s, outcome);
      && r.mode == s.mode && r.password == s.password
      && |r.alerts| == |s.alerts| + 1
      && r.alerts[|s.alerts|].title == (if outcome.Rejected? then ERROR_TITLE else UNEXPECTED_TITLE)
  {
  }

  /**
   * loading is set only when a request goes out, and whatever the outcome,
   * the press and the settling together leave loading false again.
   */
  lemma LoadingAlwaysCleared(s: LoginState, outcome: AuthOutcome)
    requires Valid(s) && !s.loading
    ensures var r := Submit(s);
      && (r.loading <==> r.requests != s.requests)
      && (r.loading ==> !Settle(r, outcome).loading)
      && (!r.loading ==> r.inFlight.None?)
  {
    SubmitSendsIff(s);
  }

  /** The toggle flips the mode while idle, twice is no change, and it does nothing while loading. */
  lemma ToggleFlips(s: LoginState)
    ensures !s.loading ==> Toggle(s).mode != s.mode && Toggle(Toggle(s)) == s
    ensures s.loading ==> Toggle(s) == s
  {
  }

  lemma InitialValid()
    ensures Valid(Initial())
  {
  }

  lemma StepsKeepValid(s: LoginState, outcome: AuthOutcome, field: Field, text: string)
    requires Valid(s)
    ensures Valid(Submit(s))
    ensures s.inFlight.Some? ==> Valid(Settle(s, outcome))
    ensures Valid(Toggle(s))
    ensures Valid(Edit(s, field, text))
  {
  }

  // ---------------------------------------------------------------------
  // The component.

  class LoginScreen {
    var mode: AuthMode
    var email: string
    var password: string
    var fullName: string
    var age: string
    var career: string
    var semester: string
    var loading: bool
    var inFlight: Option<AuthRequest>
    /** Every request sent to the auth service, in order. */
    var requests: seq<AuthRequest>
    /** Every alert shown, in order. */
    var alerts: seq<LoginAlert>

    ghost function State(): LoginState
      reads this
    {
      LoginState(mode, email, password, fullName, age, career, semester, loading, inFlight, requests, alerts)
    }

    constructor ()
      ensures State() == Initial()
    {
      mode := LoginMode;
      email, password := "", "";
      fullName, age, career, semester := "", "", "", "";
      loading := false;
      inFlight := None;
      requests, alerts := [], [];
    }

    method ChangeText(field: Field, text: string)
      modifies this
      ensures State() == Edit(old(State()), field, text)
    {
      match field
      case EmailField => email := text;
      case PasswordField => password := text;
      case FullNameField => fullName := text;
      case AgeField => age := text;
      case CareerField => career := text;
      case SemesterField => semester := text;
    }

    /** handleSubmit up to the awaited call. */
    method HandleSubmit()
      modifies this
      ensures State() == Submit(old(State()))
    {
      if loading {
        return;
      }
      if email == "" || password == "" {
        alerts := alerts + [LoginAlert(ERROR_TITLE, MISSING_FIELDS)];
        return;
      }
      if mode == SignupMode {
        if fullName == "" || career == "" {
          alerts := alerts + [LoginAlert(ERROR_TITLE, NAME_AND_CAREER)];
          return;
        }
      }
      loading := true;
      var req;
      if mode == LoginMode {
        req := SignIn(email, password);
      } else {
        var ageValue := if age == "" then None else Some(age);
        req := SignUp(email, password, Profile(fullName, ageValue, career, semester));
      }
      requests := requests + [req];
      inFlight := Some(req);
    }

    /** handleSubmit after the awaited call, through its finally block. */
    method SettleRequest(outcome: AuthOutcome)
      requires inFlight.Some?
      modifies this
      ensures State() == Settle(old(State()), outcome)
    {
      var req := inFlight.value;
      match outcome {
        case Rejected(message) =>
          alerts := alerts + [LoginAlert(ERROR_TITLE, message)];
        case Threw(reason) =>
          var message := if reason.Some? then reason.value else UNEXPECTED_MESSAGE;
          alerts := alerts + [LoginAlert(UNEXPECTED_TITLE, message)];
        case Accepted(hasSession) =>
          if req.SignUp? && !hasSession {
            alerts := alerts + [LoginAlert(SIGNUP_TITLE, SIGNUP_MESSAGE)];
            mode := LoginMode;
            password := "";
          }
      }
      inFlight := None;
      loading := false;
    }

    method PressToggle()
      modifies this
      ensures State() == Toggle(old(State()))
    {
      if loading {
        return;
      }
      mode := if mode == LoginMode then SignupMode else LoginMode;
    }
  }
}
