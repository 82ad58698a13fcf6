/** The job-seeker sign-up screen: its first-failure-wins checks and the sign-up call. */
module Register {
  import opened Wrappers

  /** The sign-up form's fields (`rwsume` is the field's name on the form). */
  datatype RegisterForm = RegisterForm(
    firstName: string,
    lastName: string,
    displayName: string,
    email: string,
    password: string,
    confirmPassword: string,
    location: string,
    industry: string,
    experience: string,
    skills: string,
    rwsume: string)

  /** The shortest password either sign-up screen accepts. */
  const MinPasswordLength := 6

  /** The password pair both sign-up screens accept: equal, and at least six characters. */
  predicate PasswordAcceptable(password: string, confirmPassword: string)
  {
    password == confirmPassword && |password| >= MinPasswordLength
  }

  /** The checks of `handleSubmit`, in order; the first failure is the message shown. */
  function RegisterCheck(f: RegisterForm): (r: Option<string>)
    ensures r.None? <==> PasswordAcceptable(f.password, f.confirmPassword)
    ensures f.password != f.confirmPassword ==> r == Some("password do not match")
    ensures f.password == f.confirmPassword && |f.password| < MinPasswordLength ==>
      r == Some("Passwor must be at least 6 characters")
  {
    if f.password != f.confirmPassword then Some("password do not match")
    else if |f.password| < MinPasswordLength then Some("Passwor must be at least 6 characters")
    else None
  }

  /** The only fields the checks read are the password pair. */
  lemma RegisterCheckReadsPasswords(f: RegisterForm, g: RegisterForm)
    requires f.password == g.password && f.confirmPassword == g.confirmPassword
    ensures RegisterCheck(f) == RegisterCheck(g)
  {
  }

  /** The arguments `signup` receives. */
  datatype SignupCall = SignupCall(email: string, password: string, displayName: string)

  /** The screen's state. */
  class RegisterScreen {
    var error: string
    var loading: bool

    constructor ()
      ensures error == "" && !loading
    {
      error := "";
      loading := false;
    }

    /** `handleSubmit`. `signup` is how the auth provider's sign-up settles; the method returns
        the call made, if any, and the page it moves to. */
    method HandleSubmit(f: RegisterForm, signup: Outcome<bool>)
      returns (call: Option<SignupCall>, navigateTo: Option<string>)
      modifies this
      ensures RegisterCheck(f).Some? ==>
        call.None? && navigateTo.None? && error == RegisterCheck(f).value && loading == old(loading)
      ensures RegisterCheck(f).None? ==> call == Some(SignupCall(f.email, f.password, f.displayName)) && !loading
      ensures RegisterCheck(f).None? && signup.Returned? ==> navigateTo == Some("/dashboard") && error == ""
      ensures RegisterCheck(f).None? && signup.Threw? ==>
        navigateTo.None? && error == "Failed to register user:" + signup.message
    {
      var failure := RegisterCheck(f);
      if failure.Some? {
        error := failure.value;
        return None, None;
      }
      error := "";
      loading := true;
      call := Some(SignupCall(f.email, f.password, f.displayName));
      if signup.Returned? {
        navigateTo := Some("/dashboard");
      } else {
        error := "Failed to register user:" + signup.message;
        navigateTo := None;
      }
      loading := false;
    }
  }
}
