/** The job-posting form: its field state, the record it builds for the store (trimming, skills
    parsing, salary and deadline parsing, company fields from the session) and its submit step. */
module PostJob {
  import opened Wrappers
  import opened Seqs
  import opened Text
  import opened Session
  import opened Store
  import opened JobContext
  import Constants

  /** The form's fields; every input holds a string. */
  datatype Form = Form(
    title: string,
    description: string,
    requirements: string,
    benefits: string,
    location: string,
    jobType: string,
    experienceLevel: string,
    industry: string,
    salaryMin: string,
    salaryMax: string,
    skills: string,
    applicationDeadline: string,
    contactEmail: string)

  /** The `name` of an input. */
  datatype Field =
    | Title | Description | Requirements | Benefits | Location | JobType | ExperienceLevel
    | Industry | SalaryMin | SalaryMax | Skills | ApplicationDeadline | ContactEmail

  /** The form as first shown: all empty but the contact e-mail, taken from the profile. */
  function InitialForm(profile: Option<Profile>): (f: Form)
    ensures forall g :: g != ContactEmail ==> Get(f, g) == ""
    ensures Get(f, ContactEmail) == if profile.Some? then OrEmpty(profile.value.email) else ""
  {
    Form("", "", "", "", "", "", "", "", "", "", "", "",
         if profile.Some? then OrEmpty(profile.value.email) else "")
  }

  function Get(f: Form, g: Field): string
  {
    match g
    case Title => f.title
    case Description => f.description
    case Requirements => f.requirements
    case Benefits => f.benefits
    case Location => f.location
    case JobType => f.jobType
    case ExperienceLevel => f.experienceLevel
    case Industry => f.industry
    case SalaryMin => f.salaryMin
    case SalaryMax => f.salaryMax
    case Skills => f.skills
    case ApplicationDeadline => f.applicationDeadline
    case ContactEmail => f.contactEmail
  }

  /** `{ ...formData, [name]: value }`: the named field takes the value, the others keep theirs. */
  function SetField(f: Form, g: Field, value: string): (r: Form)
    ensures Get(r, g) == value
    ensures forall h :: h != g ==> Get(r, h) == Get(f, h)
  {
    match g
    case Title => f.(title := value)
    case Description => f.(description := value)
    case Requirements => f.(requirements := value)
    case Benefits => f.(benefits := value)
    case Location => f.(location := value)
    case JobType => f.(jobType := value)
    case ExperienceLevel => f.(experienceLevel := value)
    case Industry => f.(industry := value)
    case SalaryMin => f.(salaryMin := value)
    case SalaryMax => f.(salaryMax := value)
    case Skills => f.(skills := value)
    case ApplicationDeadline => f.(applicationDeadline := value)
    case ContactEmail => f.(contactEmail := value)
  }

  /** `pieces.map(piece => piece.trim())`. */
  function TrimAll(pieces: seq<string>): (r: seq<string>)
    ensures |r| == |pieces|
    ensures forall i :: 0 <= i < |pieces| ==> r[i] == Trim(pieces[i])
  {
    seq(|pieces|, i requires 0 <= i < |pieces| => Trim(pieces[i]))
  }

  /** `skills ? skills.split(',').map(s => s.trim()).filter(s => s) : []`. */
  function ParseSkills(s: string): (skills: seq<string>)
    ensures s == "" ==> skills == []
    ensures forall k :: 0 <= k < |skills| ==> skills[k] != "" && IsTrimmed(skills[k])
    ensures forall x :: x in skills <==> x != "" && x in TrimAll(Split(s, ','))
    ensures IsSubseq(skills, TrimAll(Split(s, ',')))
  {
    if s == "" then []
    else
      var r := Filter(TrimAll(Split(s, ',')), (x: string) => x != "");
      assert forall k :: 0 <= k < |r| ==> r[k] in r;
      r
  }

  /** Writing a list of skills back as a comma-separated string and parsing it gives the list
      again, provided every skill is non-empty, trimmed and comma-free. */
  lemma ParseJoinedSkills(skills: seq<string>)
    requires forall k :: 0 <= k < |skills| ==> skills[k] != "" && IsTrimmed(skills[k]) && ',' !in skills[k]
    ensures ParseSkills(Join(skills, ',')) == skills
  {
    if skills != [] {
      JoinStartsWithFirst(skills);
      SplitJoin(skills, ',');
      TrimAllTrimmed(skills);
      FilterKeepsAll(skills, (x: string) => x != "");
    }
  }

  /** A join starts with its first piece, so it is empty only when that piece is. */
  lemma JoinStartsWithFirst(parts: seq<string>)
    requires |parts| > 0 && parts[0] != ""
    ensures Join(parts, ',') != ""
  {
    if |parts| > 1 {
      assert Join(parts, ',') == parts[0] + [','] + Join(parts[1..], ',');
    }
  }

  /** Trimming pieces that are already trimmed changes nothing. */
  lemma TrimAllTrimmed(pieces: seq<string>)
    requires forall k :: 0 <= k < |pieces| ==> IsTrimmed(pieces[k])
    ensures TrimAll(pieces) == pieces
  {
    forall k | 0 <= k < |pieces| ensures Trim(pieces[k]) == pieces[k] {
      TrimmedIsFixed(pieces[k]);
    }
  }

  /** `field ? parse(field) : null`. */
  function ParseOrNull<T>(field: string, parse: string -> T): (r: Option<T>)
    ensures r.None? <==> field == ""
    ensures r.Some? ==> r.value == parse(field)
  {
    if field == "" then None else Some(parse(field))
  }

  /** The `jobData` record the form submits. `parseInt` and `parseDate` stand for the host's
      `parseInt` and `new Date(...)`; `now` is the client clock. */
  function BuildJobData(f: Form, user: User, profile: Profile, parseInt: string -> int,
                        parseDate: string -> int, now: int): (d: JobData)
    ensures d.title == Some(Trim(f.title)) && d.description == Some(Trim(f.description))
    ensures d.requirements == Trim(f.requirements) && d.benefits == Trim(f.benefits)
    ensures d.contactEmail == Trim(f.contactEmail)
    ensures d.location == Some(f.location) && d.jobType == Some(f.jobType)
    ensures d.experienceLevel == Some(f.experienceLevel) && d.industry == Some(f.industry)
    ensures d.salaryMin.None? <==> f.salaryMin == ""
    ensures d.salaryMax.None? <==> f.salaryMax == ""
    ensures d.skills == Some(ParseSkills(f.skills))
    ensures d.companyId == user.uid && d.companyName == profile.companyName
    ensures d.companyLogo == OrEmpty(profile.logo) && d.companyWebsite == OrEmpty(profile.website)
    ensures d.companyDescription == OrEmpty(profile.description)
    ensures d.isActive && d.applicationsCount == Some(0)
  {
    JobData(
      Some(Trim(f.title)), Some(Trim(f.description)), Trim(f.requirements), Trim(f.benefits),
      Some(f.location), Some(f.jobType), Some(f.experienceLevel), Some(f.industry),
      ParseOrNull(f.salaryMin, parseInt), ParseOrNull(f.salaryMax, parseInt),
      Some(ParseSkills(f.skills)),
      ParseOrNull(f.applicationDeadline, parseDate),
      Trim(f.contactEmail),
      user.uid, profile.companyName, OrEmpty(profile.logo), OrEmpty(profile.website),
      OrEmpty(profile.description),
      true, Some(0), now, now)
  }

  /** A job posted from the form shows up in an unfiltered search, and in a search for its own
      (trimmed) title. */
  lemma PostedJobIsSearchable(jobs: seq<Job>, j: Job, f: Form, user: User, profile: Profile,
                              parseInt: string -> int, parseDate: string -> int, now: int)
    requires j in jobs
    requires j.data == StoredJobData(BuildJobData(f, user, profile, parseInt, parseDate, now), user.uid, j.postedAt)
    ensures j in SearchResult(jobs, "", NoFilters)
    ensures j in SearchResult(jobs, Trim(f.title), NoFilters)
  {
    var t := Lower(Trim(f.title));
    assert StartsWith(t, t);
    assert Includes(t, t);
    assert FieldContains(j.data.title, t);
  }

  /** The form screen itself is shown only to profiles tagged "company". */
  predicate ShowsForm(s: Session)
  {
    UserType(s) == Some(Constants.CompanyType)
  }

  /** The posting screen's state. */
  class PostJobForm {
    var formData: Form
    var loading: bool
    var error: string

    constructor (s: Session)
      ensures formData == InitialForm(s.userProfile) && !loading && error == ""
    {
      formData := InitialForm(s.userProfile);
      loading := false;
      error := "";
    }

    /** `handleChange`: one input changed. */
    method HandleChange(g: Field, value: string)
      modifies this
      ensures formData == SetField(old(formData), g, value)
      ensures loading == old(loading) && error == old(error)
    {
      formData := SetField(formData, g, value);
    }

    /** `handleSubmit`: checks the session, builds the record and posts it; on success the
        screen moves to the new job's page, whose id is returned. */
    method HandleSubmit(provider: JobProvider, db: Database, s: Session, parseInt: string -> int,
                        parseDate: string -> int, clientNow: int, serverNow: int)
      returns (navigateTo: Option<DocId>)
      requires db.Valid()
      modifies this, db
      ensures db.Valid() && !loading && formData == old(formData)
      ensures Gate(PostJobOp, s).Deny? ==>
        && error == "Failed to post job: " + Gate(PostJobOp, s).message
        && navigateTo.None? && unchanged(db)
      ensures Gate(PostJobOp, s).Proceed? ==>
        && error == "" && navigateTo == Some(old(db.nextId))
        && db.jobs == Insert(old(db.jobs),
             Job(old(db.nextId), serverNow,
                 StoredJobData(BuildJobData(old(formData), s.currentUser.value, s.userProfile.value,
                                            parseInt, parseDate, clientNow),
                               s.currentUser.value.uid, serverNow)),
             JobStamp)
        && db.applications == old(db.applications)
        && GetJobById(db.jobs, old(db.nextId)).Some?
    {
      loading := true;
      error := "";
      var v := Gate(PostJobOp, s);
      if v.Deny? {
        error := "Failed to post job: " + v.message;
        loading := false;
        return None;
      }
      var data := BuildJobData(formData, s.currentUser.value, s.userProfile.value, parseInt, parseDate, clientNow);
      var r := provider.PostJob(db, s, data, serverNow);
      navigateTo := Some(r.value);
      loading := false;
    }
  }
}
