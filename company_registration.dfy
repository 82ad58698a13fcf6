/** The company sign-up screen: its first-failure-wins checks, the profile record it sends and
    the sign-up call. */
module CompanyRegistration {
  import opened Wrappers
  import Register

  /** The company sign-up form's fields. */
  datatype CompanyForm = CompanyForm(
    companyName: string,
    email: string,
    password: string,
    confirmPassword: string,
    website: string,
    industry: string,
    companySize: string,
    location: string,
    description: string,
    logo: string,
    contactPhone: string,
    contactPerson: string)

  /** `field && !validateURL(field)`: a non-empty field the URL check rejects. `validUrl` stands
      for `validateURL`, which asks the host's URL parser. */
  predicate BadUrl(field: string, validUrl: string -> bool)
  {
    field != "" && !validUrl(field)
  }

  /** The checks of `handleSubmit`, in order; the first failure is the message shown. */
  function CompanyCheck(f: CompanyForm, validUrl: string -> bool): (r: Option<string>)
    ensures r.None? <==>
      Register.PasswordAcceptable(f.password, f.confirmPassword)
      && !BadUrl(f.website, validUrl) && !BadUrl(f.logo, validUrl)
    ensures f.password != f.confirmPassword ==> r == Some("Password do not match")
    ensures f.password == f.confirmPassword && |f.password| < Register.MinPasswordLength ==>
      r == Some("Password must be at least 6 characters")
    ensures Register.PasswordAcceptable(f.password, f.confirmPassword) && BadUrl(f.website, validUrl) ==>
      r == Some("Please enter a valid website URL")
    ensures Register.PasswordAcceptable(f.password, f.confirmPassword) && !BadUrl(f.website, validUrl)
            && BadUrl(f.logo, validUrl) ==>
      r == Some("Please enter a valid logo URL")
  {
    if f.password != f.confirmPassword then Some("Password do not match")
    else if |f.password| < Register.MinPasswordLength then Some("Password must be at least 6 characters")
    else if BadUrl(f.website, validUrl) then Some("Please enter a valid website URL")
    else if BadUrl(f.logo, validUrl) then Some("Please enter a valid logo URL")
    else None
  }

  /** Both sign-up screens accept the same password pairs. */
  lemma SameRulesForPasswords(f: CompanyForm, g: Register.RegisterForm, validUrl: string -> bool)
    requires f.password == g.password && f.confirmPassword == g.confirmPassword
    requires f.website == "" && f.logo == ""
    ensures CompanyCheck(f, validUrl).None? <==> Register.RegisterCheck(g).None?
  {
  }

  /** Empty website and logo fields are never sent to the URL check. */
  lemma EmptyUrlsAreNotChecked(f: CompanyForm, v1: string -> bool, v2: string -> bool)
    requires f.website == "" && f.logo == ""
    ensures CompanyCheck(f, v1) == CompanyCheck(f, v2)
  {
  }

  /** The profile fields sent with the sign-up. */
  datatype CompanyData = CompanyData(
    companyName: string,
    website: string,
    industry: string,
    companySize: string,
    location: string,
    description: string,
    logo: string,
    contactPhone: string,
    contactPerson: string)

  /** `companyData`: the nine profile fields of the form, copied as they are. */
  function CompanyDataOf(f: CompanyForm): (d: CompanyData)
    ensures d.companyName == f.companyName && d.website == f.website && d.industry == f.industry
    ensures d.companySize == f.companySize && d.location == f.location
    ensures d.description == f.description && d.logo == f.logo
    ensures d.contactPhone == f.contactPhone && d.contactPerson == f.contactPerson
  {
    CompanyData(f.companyName, f.website, f.industry, f.companySize, f.location, f.description,
                f.logo, f.contactPhone, f.contactPerson)
  }

  /** The profile record does not depend on the credentials: the e-mail and the passwords
      never reach it. */
  lemma CompanyDataOmitsCredentials(f: CompanyForm, email: string, password: string, confirm: string)
    ensures CompanyDataOf(f.(email := email, password := password, confirmPassword := confirm)) == CompanyDataOf(f)
  {
  }

  /** The arguments `sigupCompany` receives. */
  datatype CompanySignupCall = CompanySignupCall(email: string, password: string, data: CompanyData)

  /** The screen's state. */
  class CompanyRegistrationScreen {
    var error: string
    var loading: bool

    constructor ()
      ensures error == "" && !loading
    {
      error := "";
      loading := false;
    }

    /** `handleSubmit`. `signup` is how `sigupCompany` settles. A failed sign-up is only logged,
        so the screen shows no error for it. */
    method HandleSubmit(f: CompanyForm, validUrl: string -> bool, signup: Outcome<bool>)
      returns (call: Option<CompanySignupCall>, navigateTo: Option<string>)
      modifies this
      ensures CompanyCheck(f, validUrl).Some? ==>
        call.None? && navigateTo.None? && error == CompanyCheck(f, validUrl).value && loading == old(loading)
      ensures CompanyCheck(f, validUrl).None? ==>
        call == Some(CompanySignupCall(f.email, f.password, CompanyDataOf(f))) && error == "" && !loading
      ensures CompanyCheck(f, validUrl).None? ==>
        navigateTo == if signup.Returned? then Some("/dashboard") else None
    {
      var failure := CompanyCheck(f, validUrl);
      if failure.Some? {
        error := failure.value;
        return None, None;
      }
      error := "";
      loading := true;
      call := Some(CompanySignupCall(f.email, f.password, CompanyDataOf(f)));
      if signup.Returned? {
        navigateTo := Some("/dashboard");
      } else {
        navigateTo := None;
      }
      loading := false;
    }
  }
}
