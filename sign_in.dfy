/** The sign-in / sign-up screen (app/auth/index.tsx): field checks that
    run before `login`, then the route or the dialog that follows. */
module SignIn {

  import opened Common
  import opened AuthState

  /** The dialogs `handleAuth` can show. */
  datatype AuthError = MissingFields | PasswordMismatch | InvalidCredentials | SomethingWentWrong
  {
    function Message(): string
    {
      match this
      case MissingFields => "Please fill in all fields"
      case PasswordMismatch => "Passwords do not match"
      case InvalidCredentials => "Invalid credentials"
      case SomethingWentWrong => "Something went wrong"
    }
  }

  /** How the awaited `login` call ended. */
  datatype LoginResult = Resolved(success: bool) | Threw

  /** What a press of the submit button leads to. */
  datatype AuthOutcome = Navigate(route: Route) | Alert(error: AuthError)

  /** The checks before `login` is called: the first failing one, or None
      when `login` may be called. The confirmation is compared only in
      sign-up mode. */
  function Precheck(isLogin: bool, email: string, password: string, confirmPassword: string): (r: Option<AuthError>)
    ensures r == Some(MissingFields) <==> email == "" || password == ""
    ensures r == Some(PasswordMismatch) <==> email != "" && password != "" && !isLogin && password != confirmPassword
    ensures r.None? <==> email != "" && password != "" && (isLogin || password == confirmPassword)
  {
    if email == "" || password == "" then Some(MissingFields)
    else if !isLogin && password != confirmPassword then Some(PasswordMismatch)
    else None
  }

  /** In sign-in mode the confirmation field has no effect. */
  lemma SignInIgnoresConfirmation(email: string, password: string, c1: string, c2: string)
    ensures Precheck(true, email, password, c1) == Precheck(true, email, password, c2)
  {
  }

  /** The outcome once `login` has settled. */
  function AfterLogin(result: LoginResult): (o: AuthOutcome)
    ensures o == Navigate(OnboardingRoute) <==> result == Resolved(true)
    ensures o == Alert(InvalidCredentials) <==> result == Resolved(false)
    ensures o == Alert(SomethingWentWrong) <==> result.Threw?
  {
    match result
    case Resolved(true) => Navigate(OnboardingRoute)
    case Resolved(false) => Alert(InvalidCredentials)
    case Threw => Alert(SomethingWentWrong)
  }

  /** The screen never blocks credentials that `login` would accept, as
      long as sign-up's confirmation matches. */
  lemma PrecheckWeakerThanLogin(isLogin: bool, email: string, password: string, confirmPassword: string)
    requires CredentialsAccepted(email, password)
    requires isLogin || password == confirmPassword
    ensures Precheck(isLogin, email, password, confirmPassword).None?
  {
  }

  class AuthScreen {
    var isLogin: bool
    var email: string
    var password: string
    var confirmPassword: string
    var isLoading: bool
    /** The screen's own `useAuth()` instance. */
    const auth: Session

    constructor(auth: Session)
      ensures isLogin && email == "" && password == "" && confirmPassword == "" && !isLoading
      ensures this.auth == auth
    {
      isLogin, email, password, confirmPassword, isLoading := true, "", "", "", false;
      this.auth := auth;
    }

    /** The Sign In / Sign Up tabs. */
    method SetMode(login: bool)
      modifies this
      ensures isLogin == login
      ensures email == old(email) && password == old(password) && confirmPassword == old(confirmPassword)
      ensures isLoading == old(isLoading)
    {
      isLogin := login;
    }

    /** The text inputs. */
    method SetFields(email: string, password: string, confirmPassword: string)
      modifies this
      ensures this.email == email && this.password == password && this.confirmPassword == confirmPassword
      ensures isLogin == old(isLogin) && isLoading == old(isLoading)
    {
      this.email, this.password, this.confirmPassword := email, password, confirmPassword;
    }

    /** First half of `handleAuth`: run the checks; when they pass, mark
        the screen as loading while `login` is pending. */
    method BeginAuth() returns (r: Option<AuthError>)
      modifies this
      ensures r == Precheck(isLogin, email, password, confirmPassword)
      ensures isLoading == (r.None? || old(isLoading))
      ensures isLogin == old(isLogin) && email == old(email)
      ensures password == old(password) && confirmPassword == old(confirmPassword)
    {
      if email == "" || password == "" {
        return Some(MissingFields);
      }
      if !isLogin && password != confirmPassword {
        return Some(PasswordMismatch);
      }
      isLoading := true;
      r := None;
    }

    /** Second half of `handleAuth`: whatever `login` did, the `finally`
        clears the loading mark. */
    method EndAuth(result: LoginResult) returns (o: AuthOutcome)
      modifies this
      ensures o == AfterLogin(result)
      ensures !isLoading
      ensures isLogin == old(isLogin) && email == old(email)
      ensures password == old(password) && confirmPassword == old(confirmPassword)
    {
      match result {
        case Resolved(success) =>
          o := if success then Navigate(OnboardingRoute) else Alert(InvalidCredentials);
        case Threw =>
          o := Alert(SomethingWentWrong);
      }
      isLoading := false;
    }

    /** The whole handler: `login` is called only when the checks pass,
        and the outcome follows the credential gate. */
    method HandleAuth() returns (o: AuthOutcome)
      modifies this, auth, auth.store
      ensures var pre := old(Precheck(isLogin, email, password, confirmPassword));
              if pre.Some? then
                o == Alert(pre.value) && unchanged(auth) && unchanged(auth.store) && isLoading == old(isLoading)
              else
                o == AfterLogin(Resolved(CredentialsAccepted(email, password))) && !isLoading &&
                auth.Current() == if CredentialsAccepted(email, password)
                                  then old(auth.Current()).(isAuthenticated := true)
                                  else old(auth.Current())
      ensures auth.store.entries == Saved(old(auth.store.entries), old(auth.Current()), auth.Current())
      ensures isLogin == old(isLogin) && email == old(email)
      ensures password == old(password) && confirmPassword == old(confirmPassword)
    {
      var pre := BeginAuth();
      if pre.Some? {
        return Alert(pre.value);
      }
      var success := auth.Login(email, password);
      o := EndAuth(Resolved(success));
    }
  }
}
