/** The sign-in / sign-up form of `src/app/login/page.tsx`: its mode, its
    three fields, the error and success messages, and the account store it
    submits to. `Submit` reports whether it navigated home (`router.push('/')`). */
module LoginPage {
  import opened Wrappers
  import Auth

  datatype Form = Form(name: string, email: string, password: string)

  const InvalidCredentials := "Invalid email or password. Please try again."
  const FillAllFields := "Please fill in all fields."
  const PasswordTooShort := "Password must be at least 6 characters."
  const AccountCreated := "Account created successfully! Please sign in."
  const EmailExists := "Email already exists. Please try a different one."
  const MinPasswordLength := 6

  /** The checks made in sign-up mode before the store is asked: the error
      they raise, if any. */
  function SignUpProblem(form: Form): (r: Option<string>)
    ensures r == Some(FillAllFields) <==> form.name == "" || form.email == "" || form.password == ""
    ensures r == Some(PasswordTooShort) <==>
      (form.name != "" && form.email != "" && form.password != "" && |form.password| < MinPasswordLength)
    ensures r.None? <==> form.name != "" && form.email != "" && |form.password| >= MinPasswordLength
  {
    if form.name == "" || form.email == "" || form.password == "" then Some(FillAllFields)
    else if |form.password| < MinPasswordLength then Some(PasswordTooShort)
    else None
  }

  class LoginForm {
    var isLoginMode: bool
    var error: string
    var successMessage: string
    var form: Form
    const auth: Auth.AuthStore

    constructor(store: Auth.AuthStore)
      ensures auth == store && isLoginMode && error == "" && successMessage == ""
      ensures form == Form("", "", "")
    {
      auth := store;
      isLoginMode := true;
      error := "";
      successMessage := "";
      form := Form("", "", "");
    }

    /** The "Sign Up" / "Sign In" switch. */
    method ToggleMode()
      modifies this
      ensures isLoginMode == !old(isLoginMode) && error == ""
      ensures successMessage == old(successMessage) && form == old(form)
    {
      isLoginMode := !isLoginMode;
      error := "";
    }

    /** `handleSubmit` */
    method Submit() returns (home: bool)
      requires auth.Valid()
      modifies this, auth
      ensures auth.Valid()
      ensures old(isLoginMode) ==> successMessage == "" && form == old(form)
      // Sign in: home on success, the fixed error otherwise.
      ensures old(isLoginMode) ==> isLoginMode && auth.users == old(auth.users)
      ensures old(isLoginMode) && home ==> error == "" && auth.IsAuthenticated()
      ensures old(isLoginMode) && !home ==> error == InvalidCredentials && auth.user == old(auth.user)
      ensures old(isLoginMode) ==> (home <==>
        exists i :: 0 <= i < |auth.users| && auth.users[i].email == form.email && auth.users[i].password == form.password)
      // Sign up: the form checks first, then the store.
      ensures !old(isLoginMode) ==> !home && auth.user == old(auth.user)
      ensures !old(isLoginMode) && SignUpProblem(old(form)).Some? ==>
        error == SignUpProblem(old(form)).value && successMessage == "" && !isLoginMode
        && form == old(form) && auth.users == old(auth.users)
      ensures !old(isLoginMode) && SignUpProblem(old(form)).None? && !Auth.EmailTaken(old(auth.users), old(form).email) ==>
        error == "" && successMessage == AccountCreated && isLoginMode && form == old(form).(name := "")
        && auth.users == old(auth.users) + [Auth.Account(old(form).name, old(form).email, old(form).password)]
      ensures !old(isLoginMode) && SignUpProblem(old(form)).None? && Auth.EmailTaken(old(auth.users), old(form).email) ==>
        error == EmailExists && successMessage == "" && !isLoginMode && form == old(form)
        && auth.users == old(auth.users)
    {
      error := "";
      successMessage := "";
      if isLoginMode {
        var success := auth.Login(form.email, form.password);
        home := success;
        if !success {
          error := InvalidCredentials;
        }
      } else {
        var problem := SignUpProblem(form);
        home := false;
        if problem.Some? {
          error := problem.value;
          return;
        }
        var success := auth.Register(form.name, form.email, form.password);
        if success {
          successMessage := AccountCreated;
          isLoginMode := true;
          form := form.(name := "");
        } else {
          error := EmailExists;
        }
      }
    }
  }
}
