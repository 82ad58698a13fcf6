/** The signed-in session that the job board reads from its auth provider: the current user and
    the profile document stored for that user. Both are plain inputs here. */
module Session {
  import opened Wrappers

  /** The signed-in principal, as far as the job board uses it. */
  datatype User = User(uid: string)

  /** The profile document kept for a user; every field may be missing from the document. */
  datatype Profile = Profile(
    userType: Option<string>,
    email: Option<string>,
    firstName: Option<string>,
    lastName: Option<string>,
    companyName: Option<string>,
    logo: Option<string>,
    website: Option<string>,
    description: Option<string>)

  /** `currentUser` and `userProfile` as the components receive them. */
  datatype Session = Session(currentUser: Option<User>, userProfile: Option<Profile>)

  const SignedOut := Session(None, None)

  /** `userProfile?.userType`. */
  function UserType(s: Session): (t: Option<string>)
    ensures s.userProfile.None? ==> t.None?
    ensures s.userProfile.Some? ==> t == s.userProfile.value.userType
  {
    if s.userProfile.Some? then s.userProfile.value.userType else None
  }

  /** `currentUser && userProfile?.userType === role`. */
  predicate SignedInAs(s: Session, role: string)
  {
    s.currentUser.Some? && UserType(s) == Some(role)
  }
}
