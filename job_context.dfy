/** The job provider: the listing query engine (paged listing with one pushed filter, search
    with client-side filtering and text matching), the role gates in front of every read and
    write, and the writes themselves (post, update, delete, apply). */
module JobContext {
  import opened Wrappers
  import opened Seqs
  import opened Text
  import opened Session
  import opened Store
  import Constants

  /** The `limit` of one listing page. */
  const PageSize: nat := 10

  /** The filter value that means "no constraint". */
  const All := "all"

  /** The user type `applyToJob` insists on; every other place spells it "job_seeker". */
  const ApplyUserType := "jobSeeker"

  /** The filter object the listing and the search receive (`filters = {}` by default). */
  datatype Filters = Filters(
    location: Option<string>,
    jobType: Option<string>,
    experienceLevel: Option<string>,
    industry: Option<string>,
    salaryRange: Option<string>)

  const NoFilters := Filters(None, None, None, None, None)

  function FilterValue(f: Filters, dim: Dim): Option<string>
  {
    match dim
    case Location => f.location
    case JobType => f.jobType
    case ExperienceLevel => f.experienceLevel
    case Industry => f.industry
  }

  /** `filters.x && filters.x !== 'all'`: a present, non-empty value other than "all". */
  predicate IsSet(v: Option<string>)
  {
    v.Some? && v.value != "" && v.value != All
  }

  /** The position of a dimension in the precedence location > jobType > experienceLevel > industry. */
  function Rank(dim: Dim): nat
  {
    match dim
    case Location => 0
    case JobType => 1
    case ExperienceLevel => 2
    case Industry => 3
  }

  /** The one dimension the listing pushes to the store: the first one, in precedence order,
      that is set. */
  function PushedDim(f: Filters): (d: Option<Dim>)
    ensures d.Some? ==> IsSet(FilterValue(f, d.value))
    ensures d.Some? ==> forall e :: Rank(e) < Rank(d.value) ==> !IsSet(FilterValue(f, e))
    ensures d.None? <==> forall e :: !IsSet(FilterValue(f, e))
  {
    if IsSet(f.location) then Some(Location)
    else if IsSet(f.jobType) then Some(JobType)
    else if IsSet(f.experienceLevel) then Some(ExperienceLevel)
    else if IsSet(f.industry) then Some(Industry)
    else None
  }

  /** The equality constraint for the pushed dimension, if any. */
  function PushedConstraint(f: Filters): seq<Constraint>
  {
    match PushedDim(f)
    case Some(d) => [DimIs(d, FilterValue(f, d).value)]
    case None => []
  }

  /** A job passes the pushed equality, if there is one. */
  predicate MatchesPushed(j: Job, f: Filters)
  {
    PushedDim(f).Some? ==> DimValue(j.data, PushedDim(f).value) == FilterValue(f, PushedDim(f).value)
  }

  /** The query `fetchJobs` sends: its `where`s keep the active jobs that pass the pushed
      equality; it asks for one page, and carries a cursor exactly when loading more after a
      known last document. */
  function FetchQuery(f: Filters, loadMore: bool, lastDoc: Option<Job>): (q: seq<Constraint>)
    ensures forall j :: SatisfiesAll(j, q) <==> j.data.isActive && MatchesPushed(j, f)
    ensures LimitOf(q) == Some(PageSize)
    ensures CursorOf(q) == if loadMore then lastDoc else None
  {
    var front := [ActiveIs(true)] + PushedConstraint(f);
    var back := [OrderByPostedDesc, LimitTo(PageSize)]
                + (if loadMore && lastDoc.Some? then [StartAfter(lastDoc.value)] else []);
    FrontOfFetch(f);
    BackOfFetch(loadMore, lastDoc);
    LimitOfAppend(front, back);
    CursorOfAppend(front, back);
    forall j ensures SatisfiesAll(j, front + back) <==> j.data.isActive && MatchesPushed(j, f) {
      SatisfiesAllAppend(j, front, back);
    }
    front + back
  }

  /** The `where` part of the listing query. */
  lemma FrontOfFetch(f: Filters)
    ensures LimitOf([ActiveIs(true)] + PushedConstraint(f)).None?
    ensures CursorOf([ActiveIs(true)] + PushedConstraint(f)).None?
    ensures forall j :: SatisfiesAll(j, [ActiveIs(true)] + PushedConstraint(f)) <==> j.data.isActive && MatchesPushed(j, f)
  {
    var front := [ActiveIs(true)] + PushedConstraint(f);
    forall j ensures SatisfiesAll(j, front) <==> j.data.isActive && MatchesPushed(j, f) {
      SatisfiesAllAppend(j, [ActiveIs(true)], PushedConstraint(f));
      SatisfiesAllSingle(j, ActiveIs(true));
      if PushedDim(f).Some? {
        SatisfiesAllSingle(j, PushedConstraint(f)[0]);
        assert PushedConstraint(f) == [PushedConstraint(f)[0]];
      }
    }
  }

  /** The ordering, limit and cursor part of the listing query. */
  lemma BackOfFetch(loadMore: bool, lastDoc: Option<Job>)
    ensures var back := [OrderByPostedDesc, LimitTo(PageSize)]
                        + (if loadMore && lastDoc.Some? then [StartAfter(lastDoc.value)] else []);
            && LimitOf(back) == Some(PageSize)
            && CursorOf(back) == (if loadMore then lastDoc else None)
            && forall j :: SatisfiesAll(j, back)
  {
    var back := [OrderByPostedDesc, LimitTo(PageSize)]
                + (if loadMore && lastDoc.Some? then [StartAfter(lastDoc.value)] else []);
    assert CursorOf(back) == CursorOf(back[1..]);
    assert CursorOf(back[1..]) == CursorOf(back[1..][1..]);
    assert back[1..][1..] == back[2..];
    if loadMore && lastDoc.Some? {
      assert back[2..] == [StartAfter(lastDoc.value)];
    } else {
      assert back[2..] == [];
    }
    forall j ensures SatisfiesAll(j, back) {
    }
  }

  /** `jobList.filter(job => job.<dim> === value)`. */
  function KeepDim(jobs: seq<Job>, dim: Dim, value: string): (r: seq<Job>)
    ensures IsSubseq(r, jobs)
    ensures forall j :: j in r <==> j in jobs && DimValue(j.data, dim) == Some(value)
  {
    Filter(jobs, (j: Job) => DimValue(j.data, dim) == Some(value))
  }

  /** A job agrees with every set filter among jobType, experienceLevel and industry. */
  predicate MatchesClientFilters(j: Job, f: Filters)
  {
    forall d :: d != Location && IsSet(FilterValue(f, d)) ==> DimValue(j.data, d) == FilterValue(f, d)
  }

  /** KeepDim when the filter value is set, nothing otherwise. */
  function KeepIfSet(jobs: seq<Job>, dim: Dim, v: Option<string>): (r: seq<Job>)
    ensures IsSubseq(r, jobs)
    ensures forall j :: j in r <==> j in jobs && (IsSet(v) ==> DimValue(j.data, dim) == v)
  {
    if IsSet(v) then KeepDim(jobs, dim, v.value)
    else
      SubseqRefl(jobs);
      jobs
  }

  /** The client-side filters for jobType, experienceLevel and industry, applied in that order. */
  function ClientFilters(jobs: seq<Job>, f: Filters): (r: seq<Job>)
    ensures IsSubseq(r, jobs)
    ensures forall j :: j in r <==> j in jobs && MatchesClientFilters(j, f)
  {
    var a := KeepIfSet(jobs, JobType, f.jobType);
    var b := KeepIfSet(a, ExperienceLevel, f.experienceLevel);
    var c := KeepIfSet(b, Industry, f.industry);
    SubseqTrans(b, a, jobs);
    SubseqTrans(c, b, jobs);
    assert forall j :: MatchesClientFilters(j, f) <==>
      (IsSet(f.jobType) ==> j.data.jobType == f.jobType) &&
      (IsSet(f.experienceLevel) ==> j.data.experienceLevel == f.experienceLevel) &&
      (IsSet(f.industry) ==> j.data.industry == f.industry);
    c
  }

  /** What `fetchJobs` keeps of a fetched page: the page itself when a location is set, the
      client-side filters otherwise. */
  function FetchPostFilter(page: seq<Job>, f: Filters): (r: seq<Job>)
    ensures IsSubseq(r, page)
    ensures IsSet(f.location) ==> r == page
    ensures forall j :: j in r <==> j in page && (IsSet(f.location) || MatchesClientFilters(j, f))
  {
    if IsSet(f.location) then
      SubseqRefl(page);
      page
    else ClientFilters(page, f)
  }

  /** The query `searchJobs` sends: its `where`s keep the active jobs at the location when one
      is set; it has neither a limit nor a cursor. */
  function SearchQuery(f: Filters): (q: seq<Constraint>)
    ensures forall j :: SatisfiesAll(j, q) <==> j.data.isActive && (IsSet(f.location) ==> j.data.location == f.location)
    ensures LimitOf(q).None? && CursorOf(q).None?
  {
    var q := [ActiveIs(true)] + (if IsSet(f.location) then [DimIs(Location, f.location.value)] else [])
             + [OrderByPostedDesc];
    forall j ensures SatisfiesAll(j, q) <==> j.data.isActive && (IsSet(f.location) ==> j.data.location == f.location) {
      var loc := if IsSet(f.location) then [DimIs(Location, f.location.value)] else [];
      SatisfiesAllAppend(j, [ActiveIs(true)] + loc, [OrderByPostedDesc]);
      SatisfiesAllAppend(j, [ActiveIs(true)], loc);
      SatisfiesAllSingle(j, ActiveIs(true));
      SatisfiesAllSingle(j, OrderByPostedDesc);
      if IsSet(f.location) {
        SatisfiesAllSingle(j, DimIs(Location, f.location.value));
      }
    }
    q
  }

  /** `field?.toLowerCase().includes(needle)` on an optional text field. */
  predicate FieldContains(field: Option<string>, needle: string)
  {
    field.Some? && Includes(Lower(field.value), needle)
  }

  /** The text match of the search: the lower-cased term occurs in the lower-cased title,
      company name or description, or in some lower-cased skill. */
  predicate MatchesTerm(j: Job, needle: string)
  {
    || FieldContains(j.data.title, needle)
    || FieldContains(j.data.companyName, needle)
    || FieldContains(j.data.description, needle)
    || (j.data.skills.Some? && exists k :: 0 <= k < |j.data.skills.value| && Includes(Lower(j.data.skills.value[k]), needle))
  }

  /** The text filter of the search; an empty term skips it. */
  function TextFilter(jobs: seq<Job>, term: string): (r: seq<Job>)
    ensures IsSubseq(r, jobs)
    ensures forall j :: j in r <==> j in jobs && (term == "" || MatchesTerm(j, Lower(term)))
  {
    if term == "" then
      SubseqRefl(jobs);
      jobs
    else
      var needle := Lower(term);
      Filter(jobs, (j: Job) => MatchesTerm(j, needle))
  }

  /** The list `searchJobs` returns for a store: exactly the stored active jobs at the chosen
      location that pass every other set filter and, for a non-empty term, match it, in store
      order. */
  function SearchResult(jobs: seq<Job>, term: string, f: Filters): (r: seq<Job>)
    ensures IsSubseq(r, jobs)
    ensures forall j :: j in r <==>
      && j in jobs && j.data.isActive
      && (IsSet(f.location) ==> j.data.location == f.location)
      && MatchesClientFilters(j, f)
      && (term == "" || MatchesTerm(j, Lower(term)))
  {
    var found := RunQuery(jobs, SearchQuery(f));
    assert found == Selected(jobs, SearchQuery(f));
    var kept := ClientFilters(found, f);
    SubseqTrans(kept, found, jobs);
    SubseqTrans(TextFilter(kept, term), kept, jobs);
    TextFilter(kept, term)
  }

  /** The client-side part of `fetchJobs`: nothing when a location is set (the store already
      applied it and the other filters are skipped), else the jobType, experienceLevel and
      industry filters in turn. */
  method KeepClientSide(page: seq<Job>, filters: Filters) returns (jobList: seq<Job>)
    ensures jobList == FetchPostFilter(page, filters)
  {
    jobList := page;
    if !IsSet(filters.location) {
      if IsSet(filters.jobType) {
        jobList := KeepDim(jobList, JobType, filters.jobType.value);
      }
      if IsSet(filters.experienceLevel) {
        jobList := KeepDim(jobList, ExperienceLevel, filters.experienceLevel.value);
      }
      if IsSet(filters.industry) {
        jobList := KeepDim(jobList, Industry, filters.industry.value);
      }
    }
  }

  // ----- Role gates -----

  /** The provider operations that check the caller's role. */
  datatype Op =
    | PostJobOp | GetCompanyJobsOp | UpdateJobOp | DeleteJobOp
    | ApplyToJobOp | GetJobApplicationsOp | GetUserApplicationsOp

  /** What a gate decides: go on, throw with a message, or answer with an empty list. */
  datatype Verdict = Proceed | Deny(message: string) | Empty

  /** The user type each operation demands. */
  function RoleFor(op: Op): string
  {
    match op
    case ApplyToJobOp => ApplyUserType
    case GetUserApplicationsOp => Constants.JobSeekerType
    case _ => Constants.CompanyType
  }

  /** The check each operation makes before touching the store. */
  function Gate(op: Op, s: Session): (v: Verdict)
    ensures v.Proceed? <==> SignedInAs(s, RoleFor(op))
    ensures v.Empty? <==> !v.Proceed? && (op == GetCompanyJobsOp || op == GetUserApplicationsOp)
    ensures op == PostJobOp && !v.Proceed? && s.currentUser.None? ==> v == Deny("You must be logged in to post a job")
    ensures op == PostJobOp && !v.Proceed? && s.currentUser.Some? ==> v == Deny("Only companies can post jobs")
    ensures op == UpdateJobOp && !v.Proceed? ==> v == Deny("Only comapies can update jobs")
    ensures op == DeleteJobOp && !v.Proceed? ==> v == Deny("Only companies can delete jobs")
    ensures op == ApplyToJobOp && !v.Proceed? ==> v == Deny("Only job seeeker can apply to jobs")
    ensures op == GetJobApplicationsOp && !v.Proceed? ==> v == Deny("Only companies can view applications")
  {
    if SignedInAs(s, RoleFor(op)) then Proceed
    else match op
      case PostJobOp =>
        if s.currentUser.None? then Deny("You must be logged in to post a job")
        else Deny("Only companies can post jobs")
      case GetCompanyJobsOp => Empty
      case UpdateJobOp => Deny("Only comapies can update jobs")
      case DeleteJobOp => Deny("Only companies can delete jobs")
      case ApplyToJobOp => Deny("Only job seeeker can apply to jobs")
      case GetJobApplicationsOp => Deny("Only companies can view applications")
      case GetUserApplicationsOp => Empty
  }

  /** A profile tagged "job_seeker", the tag used everywhere else, never passes the gate of
      `applyToJob`; and a session that does pass it sees no applications of its own. */
  lemma ApplyGateRejectsJobSeekers(s: Session)
    ensures SignedInAs(s, Constants.JobSeekerType) ==> Gate(ApplyToJobOp, s).Deny?
    ensures Gate(ApplyToJobOp, s).Proceed? ==> Gate(GetUserApplicationsOp, s).Empty?
  {
  }

  // ----- Reads -----

  /** `getJobById`: the job with that id, or null when there is none. */
  function GetJobById(jobs: seq<Job>, id: DocId): (r: Option<Job>)
    ensures r.Some? <==> exists j :: j in jobs && j.id == id
    ensures r.Some? ==> r.value in jobs && r.value.id == id
    decreases |jobs|
  {
    if jobs == [] then None
    else if jobs[0].id == id then Some(jobs[0])
    else
      assert jobs == [jobs[0]] + jobs[1..];
      GetJobById(jobs[1..], id)
  }

  /** `getCompanyJobs`: the signed-in company's own jobs, newest first, or [] for anyone else. */
  function GetCompanyJobs(jobs: seq<Job>, s: Session): (r: seq<Job>)
    ensures !SignedInAs(s, Constants.CompanyType) ==> r == []
    ensures SignedInAs(s, Constants.CompanyType) ==>
      IsSubseq(r, jobs) && forall j :: j in r <==> j in jobs && j.data.companyId == s.currentUser.value.uid
  {
    if Gate(GetCompanyJobsOp, s) != Proceed then []
    else
      var uid := s.currentUser.value.uid;
      var q := [CompanyIs(uid), OrderByPostedDesc];
      assert LimitOf(q).None? && CursorOf(q).None?;
      forall j ensures SatisfiesAll(j, q) <==> j.data.companyId == uid {
        SatisfiesAllAppend(j, [CompanyIs(uid)], [OrderByPostedDesc]);
        SatisfiesAllSingle(j, CompanyIs(uid));
        SatisfiesAllSingle(j, OrderByPostedDesc);
      }
      RunQuery(jobs, q)
  }

  /** `getJobApplications`: the applications whose jobId is the given job, newest first, for any
      company; everyone else gets an error. */
  function GetJobApplications(apps: seq<Application>, s: Session, jobId: DocId): (r: Outcome<seq<Application>>)
    ensures r.Threw? <==> !SignedInAs(s, Constants.CompanyType)
    ensures r.Returned? ==> IsSubseq(r.value, apps)
    ensures r.Returned? ==> forall a :: a in r.value <==> a in apps && a.data.jobId == Some(jobId)
  {
    match Gate(GetJobApplicationsOp, s)
    case Deny(m) => Threw(m)
    case _ => Returned(Filter(apps, (a: Application) => a.data.jobId == Some(jobId)))
  }

  /** `getUserApplications`: the signed-in job seeker's applications, newest first, or []. */
  function GetUserApplications(apps: seq<Application>, s: Session): (r: seq<Application>)
    ensures !SignedInAs(s, Constants.JobSeekerType) ==> r == []
    ensures SignedInAs(s, Constants.JobSeekerType) ==>
      IsSubseq(r, apps) && forall a :: a in r <==> a in apps && a.applicantId == s.currentUser.value.uid
  {
    if Gate(GetUserApplicationsOp, s) != Proceed then []
    else Filter(apps, (a: Application) => a.applicantId == s.currentUser.value.uid)
  }

  // ----- Records the writes build -----

  /** The document `postJob` stores: the job data with `companyId` taken from the session and
      `updatedAt` replaced by the server time. */
  function StoredJobData(data: JobData, uid: string, now: int): (d: JobData)
    ensures d.companyId == uid && d.updatedAt == now
    ensures d.(companyId := data.companyId, updatedAt := data.updatedAt) == data
  {
    data.(companyId := uid, updatedAt := now)
  }

  /** The partial update `updateJob` accepts: an object whose keys are spread over the stored
      document, so it may carry any field. A present field (`Some`) replaces the stored value,
      which for an optional field may itself be null (`Some(None)`); an absent one keeps it.
      `updatedAt` is not listed: the server time overwrites whatever the update carries. */
  datatype JobPatch = JobPatch(
    title: Option<Option<string>>,
    description: Option<Option<string>>,
    requirements: Option<string>,
    benefits: Option<string>,
    location: Option<Option<string>>,
    jobType: Option<Option<string>>,
    experienceLevel: Option<Option<string>>,
    industry: Option<Option<string>>,
    salaryMin: Option<Option<int>>,
    salaryMax: Option<Option<int>>,
    skills: Option<Option<seq<string>>>,
    applicationDeadline: Option<Option<int>>,
    contactEmail: Option<string>,
    companyId: Option<string>,
    companyName: Option<Option<string>>,
    companyLogo: Option<string>,
    companyWebsite: Option<string>,
    companyDescription: Option<string>,
    isActive: Option<bool>,
    applicationsCount: Option<Option<nat>>,
    createdAt: Option<int>)

  /** The update that carries no field. */
  const NoChanges := JobPatch(None, None, None, None, None, None, None, None, None, None, None, None, None, None, None, None, None, None, None, None, None)

  /** The value a field takes after the spread: the update's when present, the stored one else. */
  function Overwrite<T>(update: Option<T>, stored: T): T
  {
    if update.Some? then update.value else stored
  }

  /** `{ ...updates, updatedAt: serverTimestamp() }` merged into the stored document. */
  function ApplyPatch(d: JobData, p: JobPatch, now: int): (r: JobData)
    ensures r.updatedAt == now
    ensures r.title == (if p.title.Some? then p.title.value else d.title)
    ensures r.description == (if p.description.Some? then p.description.value else d.description)
    ensures r.requirements == (if p.requirements.Some? then p.requirements.value else d.requirements)
    ensures r.benefits == (if p.benefits.Some? then p.benefits.value else d.benefits)
    ensures r.location == (if p.location.Some? then p.location.value else d.location)
    ensures r.jobType == (if p.jobType.Some? then p.jobType.value else d.jobType)
    ensures r.experienceLevel == (if p.experienceLevel.Some? then p.experienceLevel.value else d.experienceLevel)
    ensures r.industry == (if p.industry.Some? then p.industry.value else d.industry)
    ensures r.salaryMin == (if p.salaryMin.Some? then p.salaryMin.value else d.salaryMin)
    ensures r.salaryMax == (if p.salaryMax.Some? then p.salaryMax.value else d.salaryMax)
    ensures r.skills == (if p.skills.Some? then p.skills.value else d.skills)
    ensures r.applicationDeadline == (if p.applicationDeadline.Some? then p.applicationDeadline.value else d.applicationDeadline)
    ensures r.contactEmail == (if p.contactEmail.Some? then p.contactEmail.value else d.contactEmail)
    ensures r.companyId == (if p.companyId.Some? then p.companyId.value else d.companyId)
    ensures r.companyName == (if p.companyName.Some? then p.companyName.value else d.companyName)
    ensures r.companyLogo == (if p.companyLogo.Some? then p.companyLogo.value else d.companyLogo)
    ensures r.companyWebsite == (if p.companyWebsite.Some? then p.companyWebsite.value else d.companyWebsite)
    ensures r.companyDescription == (if p.companyDescription.Some? then p.companyDescription.value else d.companyDescription)
    ensures r.isActive == (if p.isActive.Some? then p.isActive.value else d.isActive)
    ensures r.applicationsCount == (if p.applicationsCount.Some? then p.applicationsCount.value else d.applicationsCount)
    ensures r.createdAt == (if p.createdAt.Some? then p.createdAt.value else d.createdAt)
  {
    d.(title := Overwrite(p.title, d.title),
       description := Overwrite(p.description, d.description),
       requirements := Overwrite(p.requirements, d.requirements),
       benefits := Overwrite(p.benefits, d.benefits),
       location := Overwrite(p.location, d.location),
       jobType := Overwrite(p.jobType, d.jobType),
       experienceLevel := Overwrite(p.experienceLevel, d.experienceLevel),
       industry := Overwrite(p.industry, d.industry),
       salaryMin := Overwrite(p.salaryMin, d.salaryMin),
       salaryMax := Overwrite(p.salaryMax, d.salaryMax),
       skills := Overwrite(p.skills, d.skills),
       applicationDeadline := Overwrite(p.applicationDeadline, d.applicationDeadline),
       contactEmail := Overwrite(p.contactEmail, d.contactEmail),
       companyId := Overwrite(p.companyId, d.companyId),
       companyName := Overwrite(p.companyName, d.companyName),
       companyLogo := Overwrite(p.companyLogo, d.companyLogo),
       companyWebsite := Overwrite(p.companyWebsite, d.companyWebsite),
       companyDescription := Overwrite(p.companyDescription, d.companyDescription),
       isActive := Overwrite(p.isActive, d.isActive),
       applicationsCount := Overwrite(p.applicationsCount, d.applicationsCount),
       createdAt := Overwrite(p.createdAt, d.createdAt),
       updatedAt := now)
  }

  /** An update without fields only refreshes `updatedAt`. */
  lemma NoChangesOnlyStamps(d: JobData, now: int)
    ensures ApplyPatch(d, NoChanges, now) == d.(updatedAt := now)
  {
  }

  /** Sending the same update twice leaves the document as sending it once, up to the time. */
  lemma PatchIdempotent(d: JobData, p: JobPatch, t1: int, t2: int)
    ensures ApplyPatch(ApplyPatch(d, p, t1), p, t2) == ApplyPatch(d, p, t2)
  {
  }

  /** The application record `applyToJob` stores. */
  function NewApplication(id: DocId, data: ApplicationData, user: User, profile: Profile, now: int): (a: Application)
    ensures a.id == id && a.data == data && a.applicantId == user.uid && a.status == "pending"
    ensures a.applicantName == ShowString(profile.firstName) + " " + ShowString(profile.lastName)
    ensures a.applicantEmail == profile.email && a.appliedAt == now
  {
    Application(id, data, user.uid, ShowString(profile.firstName) + " " + ShowString(profile.lastName),
                profile.email, now, "pending")
  }

  /** `applicationsCount: (applicationsCount || 0) + 1`. */
  function CountOneMore(d: JobData): (r: JobData)
    ensures r.applicationsCount.Some?
    ensures r.applicationsCount.value == (if d.applicationsCount.Some? then d.applicationsCount.value else 0) + 1
    ensures r.(applicationsCount := d.applicationsCount) == d
  {
    d.(applicationsCount := Some(if d.applicationsCount.Some? then d.applicationsCount.value + 1 else 1))
  }

  // ----- The provider and its state -----

  /** The provider's state: the listed jobs, the pagination cursor, whether more pages may
      follow, and the loading flag. `lastQuery` records the query last sent to the store. */
  class JobProvider {
    var jobs: seq<Job>
    var loading: bool
    var lastDoc: Option<Job>
    var hasMore: bool
    ghost var lastQuery: seq<Constraint>

    constructor ()
      ensures jobs == [] && !loading && lastDoc.None? && hasMore && lastQuery == []
    {
      jobs, loading, lastDoc, hasMore := [], false, None, true;
      lastQuery := [];
    }

    /** `fetchJobs(filters, loadMore)`: one page of active jobs, filtered as described by
        FetchQuery and FetchPostFilter; the page is appended when loading more. */
    method FetchJobs(db: Database, filters: Filters, loadMore: bool) returns (jobList: seq<Job>)
      modifies this
      ensures lastQuery == FetchQuery(filters, loadMore, old(lastDoc))
      ensures jobList == FetchPostFilter(RunQuery(db.jobs, lastQuery), filters)
      ensures jobs == if loadMore then old(jobs) + jobList else jobList
      ensures var page := RunQuery(db.jobs, lastQuery);
              && lastDoc == (if page == [] then None else Some(page[|page| - 1]))
              && hasMore == (|page| == PageSize)
      ensures !loading
    {
      loading := true;
      var constraints := FetchQuery(filters, loadMore, lastDoc);
      lastQuery := constraints;
      var page := RunQuery(db.jobs, constraints);

      jobList := KeepClientSide(page, filters);

      if loadMore {
        jobs := jobs + jobList;
      } else {
        jobs := jobList;
      }
      lastDoc := if page == [] then None else Some(page[|page| - 1]);
      hasMore := |page| == PageSize;
      loading := false;
    }

    /** `searchJobs(term, filters)`: every matching active job, replacing the listed jobs; the
        pagination state is left alone. */
    method SearchJobs(db: Database, term: string, filters: Filters) returns (jobList: seq<Job>)
      modifies this
      ensures lastQuery == SearchQuery(filters)
      ensures jobList == SearchResult(db.jobs, term, filters)
      ensures jobs == jobList
      ensures lastDoc == old(lastDoc) && hasMore == old(hasMore)
      ensures !loading
    {
      loading := true;
      var constraints := [ActiveIs(true)];
      if IsSet(filters.location) {
        constraints := constraints + [DimIs(Location, filters.location.value)];
      }
      constraints := constraints + [OrderByPostedDesc];
      lastQuery := constraints;
      jobList := RunQuery(db.jobs, constraints);

      if IsSet(filters.jobType) {
        jobList := KeepDim(jobList, JobType, filters.jobType.value);
      }
      if IsSet(filters.experienceLevel) {
        jobList := KeepDim(jobList, ExperienceLevel, filters.experienceLevel.value);
      }
      if IsSet(filters.industry) {
        jobList := KeepDim(jobList, Industry, filters.industry.value);
      }
      if term != "" {
        var needle := Lower(term);
        jobList := Filter(jobList, (j: Job) => MatchesTerm(j, needle));
      }

      jobs := jobList;
      loading := false;
    }

    /** `postJob(jobData)`: only a signed-in company may post; the document is filed by its
        server timestamp and its new id is returned. */
    method PostJob(db: Database, s: Session, data: JobData, now: int) returns (r: Outcome<DocId>)
      requires db.Valid()
      modifies db
      ensures db.Valid()
      ensures Gate(PostJobOp, s).Deny? ==>
        r == Threw(Gate(PostJobOp, s).message) && unchanged(db)
      ensures Gate(PostJobOp, s).Proceed? ==>
        && r == Returned(old(db.nextId))
        && db.jobs == Insert(old(db.jobs), Job(old(db.nextId), now, StoredJobData(data, s.currentUser.value.uid, now)), JobStamp)
        && db.applications == old(db.applications)
        && GetJobById(db.jobs, old(db.nextId)) == Some(Job(old(db.nextId), now, StoredJobData(data, s.currentUser.value.uid, now)))
    {
      var v := Gate(PostJobOp, s);
      if v.Deny? {
        return Threw(v.message);
      }
      ghost var before := db.jobs;
      var id := db.AddJob(StoredJobData(data, s.currentUser.value.uid, now), now);
      PostedJobIsFound(before, Job(id, now, StoredJobData(data, s.currentUser.value.uid, now)));
      r := Returned(id);
    }

    /** `updateJob(jobId, updates)`: any signed-in company may update any job; updating a
        missing document fails in the store. */
    method UpdateJob(db: Database, s: Session, id: DocId, patch: JobPatch, now: int) returns (r: Outcome<bool>)
      requires db.Valid()
      modifies db
      ensures db.Valid()
      ensures Gate(UpdateJobOp, s).Deny? ==> r == Threw(Gate(UpdateJobOp, s).message) && unchanged(db)
      ensures Gate(UpdateJobOp, s).Proceed? && GetJobById(old(db.jobs), id).None? ==>
        r.Threw? && unchanged(db)
      ensures Gate(UpdateJobOp, s).Proceed? && GetJobById(old(db.jobs), id).Some? ==>
        && r == Returned(true)
        && db.jobs == UpdateJobData(old(db.jobs), id, (d: JobData) => ApplyPatch(d, patch, now))
        && db.applications == old(db.applications)
        && GetJobById(db.jobs, id) == Some(GetJobById(old(db.jobs), id).value.(
             data := ApplyPatch(GetJobById(old(db.jobs), id).value.data, patch, now)))
    {
      var v := Gate(UpdateJobOp, s);
      if v.Deny? {
        return Threw(v.message);
      }
      if GetJobById(db.jobs, id).None? {
        return Threw("No document to update");
      }
      UpdatedJobIsFound(db.jobs, id, (d: JobData) => ApplyPatch(d, patch, now));
      db.UpdateJob(id, (d: JobData) => ApplyPatch(d, patch, now));
      r := Returned(true);
    }

    /** `deleteJob(jobId)`: any signed-in company may delete any job. */
    method DeleteJob(db: Database, s: Session, id: DocId) returns (r: Outcome<bool>)
      requires db.Valid()
      modifies db
      ensures db.Valid()
      ensures Gate(DeleteJobOp, s).Deny? ==> r == Threw(Gate(DeleteJobOp, s).message) && unchanged(db)
      ensures Gate(DeleteJobOp, s).Proceed? ==>
        && r == Returned(true)
        && db.jobs == DeleteJobDoc(old(db.jobs), id)
        && db.applications == old(db.applications)
        && GetJobById(db.jobs, id).None?
    {
      var v := Gate(DeleteJobOp, s);
      if v.Deny? {
        return Threw(v.message);
      }
      db.DeleteJob(id);
      DeletedJobIsGone(old(db.jobs), id);
      r := Returned(true);
    }

    /** `applyToJob(jobId, applicationData)`: stores a pending application and then, if the job
        exists, counts one more application on it. */
    method ApplyToJob(db: Database, s: Session, jobId: DocId, data: ApplicationData, now: int) returns (r: Outcome<bool>)
      requires db.Valid()
      modifies db
      ensures db.Valid()
      ensures Gate(ApplyToJobOp, s).Deny? ==> r == Threw(Gate(ApplyToJobOp, s).message) && unchanged(db)
      ensures Gate(ApplyToJobOp, s).Proceed? ==>
        && r == Returned(true)
        && db.applications == Insert(old(db.applications),
             NewApplication(old(db.nextId), data, s.currentUser.value, s.userProfile.value, now), ApplicationStamp)
        && db.jobs == (if GetJobById(old(db.jobs), jobId).Some? then UpdateJobData(old(db.jobs), jobId, CountOneMore)
                       else old(db.jobs))
    {
      var v := Gate(ApplyToJobOp, s);
      if v.Deny? {
        return Threw(v.message);
      }
      var application := NewApplication(db.nextId, data, s.currentUser.value, s.userProfile.value, now);
      db.AddApplication(application);
      if GetJobById(db.jobs, jobId).Some? {
        db.UpdateJob(jobId, CountOneMore);
      }
      r := Returned(true);
    }
  }

  // ----- Properties of the listing and the search -----

  /** The jobs `fetchJobs` pages through: the active jobs passing the pushed equality, newest
      first. */
  function Listing(jobs: seq<Job>, f: Filters): (r: seq<Job>)
    ensures IsSubseq(r, jobs)
    ensures forall j :: j in r <==> j in jobs && j.data.isActive && MatchesPushed(j, f)
  {
    Selected(jobs, FetchQuery(f, false, None))
  }

  /** The first page is the head of the listing. */
  lemma FirstPageIsListingHead(jobs: seq<Job>, f: Filters)
    ensures RunQuery(jobs, FetchQuery(f, false, None)) == Take(Listing(jobs, f), PageSize)
  {
    assert CursorOf(FetchQuery(f, false, None)).None?;
  }

  /** The page after the listing's k-th job is the next PageSize jobs after it: no job is
      skipped or repeated between pages. */
  lemma {:induction false} PagesFollowListing(jobs: seq<Job>, f: Filters, k: nat)
    requires Ordered(jobs, JobStamp)
    requires k < |Listing(jobs, f)|
    ensures RunQuery(jobs, FetchQuery(f, true, Some(Listing(jobs, f)[k])))
            == Take(Listing(jobs, f)[k + 1..], PageSize)
  {
    var m := Listing(jobs, f);
    var q := FetchQuery(f, true, Some(m[k]));
    FilterAgree(jobs, (j: Job) => SatisfiesAll(j, q), (j: Job) => SatisfiesAll(j, FetchQuery(f, false, None)));
    assert Selected(jobs, q) == m;
    SubseqOrdered(m, jobs, JobStamp);
    AfterCursorIsSuffix(m, k);
  }

  /** When the first page is full (hasMore), loading more with its last document as cursor
      continues the listing exactly: the two pages together are a prefix of the listing, and
      with distinct ids in the store no job appears twice. */
  lemma ConsecutivePages(jobs: seq<Job>, f: Filters)
    requires Ordered(jobs, JobStamp) && UniqueIds(jobs)
    requires |RunQuery(jobs, FetchQuery(f, false, None))| == PageSize
    ensures var first := RunQuery(jobs, FetchQuery(f, false, None));
            var second := RunQuery(jobs, FetchQuery(f, true, Some(first[PageSize - 1])));
            && first + second <= Listing(jobs, f)
            && UniqueIds(first + second)
  {
    var m := Listing(jobs, f);
    var first := RunQuery(jobs, FetchQuery(f, false, None));
    FirstPageIsListingHead(jobs, f);
    assert first == m[..PageSize];
    assert first[PageSize - 1] == m[PageSize - 1];
    PagesFollowListing(jobs, f, PageSize - 1);
    var second := RunQuery(jobs, FetchQuery(f, true, Some(first[PageSize - 1])));
    TakeAfterPrefix(m, PageSize, PageSize);
    PrefixSubseq(first + second, m);
    SubseqUniqueIds(m, jobs);
    SubseqUniqueIds(first + second, m);
  }

  /** The first n elements followed by some of the rest form a prefix. */
  lemma TakeAfterPrefix<T>(m: seq<T>, n: nat, c: nat)
    requires n <= |m|
    ensures m[..n] + Take(m[n..], c) <= m
  {
    assert m[..n] + Take(m[n..], c) == m[..n + |Take(m[n..], c)|];
  }

  /** Without jobType, experienceLevel or industry filters, the first listing page is the first
      PageSize results of a search with an empty term. */
  lemma FirstPageIsSearchHead(jobs: seq<Job>, f: Filters)
    requires !IsSet(f.jobType) && !IsSet(f.experienceLevel) && !IsSet(f.industry)
    ensures FetchPostFilter(RunQuery(jobs, FetchQuery(f, false, None)), f)
            == Take(SearchResult(jobs, "", f), PageSize)
  {
    var page := RunQuery(jobs, FetchQuery(f, false, None));
    var found := RunQuery(jobs, SearchQuery(f));
    assert FetchPostFilter(page, f) == page;
    assert ClientFilters(found, f) == found;
    assert found == Selected(jobs, SearchQuery(f));
    FilterAgree(jobs, (j: Job) => SatisfiesAll(j, FetchQuery(f, false, None)), (j: Job) => SatisfiesAll(j, SearchQuery(f)));
  }

  /** The search ignores the case of the term. */
  lemma SearchIgnoresCase(jobs: seq<Job>, t1: string, t2: string, f: Filters)
    requires Lower(t1) == Lower(t2)
    ensures SearchResult(jobs, t1, f) == SearchResult(jobs, t2, f)
  {
    assert |t1| == |Lower(t1)| == |t2|;
  }

  /** Typing more of the term only narrows the results. */
  lemma LongerTermNarrows(jobs: seq<Job>, term: string, more: string, f: Filters, j: Job)
    requires j in SearchResult(jobs, term + more, f)
    ensures j in SearchResult(jobs, term, f)
  {
    if term != "" {
      LowerAppend(term, more);
      var t, u := Lower(term), Lower(more);
      assert MatchesTerm(j, t + u);
      if FieldContains(j.data.title, t + u) {
        IncludesPrefix(Lower(j.data.title.value), t, u);
      } else if FieldContains(j.data.companyName, t + u) {
        IncludesPrefix(Lower(j.data.companyName.value), t, u);
      } else if FieldContains(j.data.description, t + u) {
        IncludesPrefix(Lower(j.data.description.value), t, u);
      } else {
        var k :| 0 <= k < |j.data.skills.value| && Includes(Lower(j.data.skills.value[k]), t + u);
        IncludesPrefix(Lower(j.data.skills.value[k]), t, u);
      }
    }
  }

  // ----- Reading back what was written -----

  /** A job filed under a fresh id is the one `getJobById` finds for that id. */
  lemma PostedJobIsFound(jobs: seq<Job>, x: Job)
    requires forall y :: y in jobs ==> y.id != x.id
    ensures GetJobById(Insert(jobs, x, JobStamp), x.id) == Some(x)
  {
  }

  /** With distinct ids, after an update `getJobById` finds the same job with its data
      rewritten. */
  lemma UpdatedJobIsFound(jobs: seq<Job>, id: DocId, f: JobData -> JobData)
    requires UniqueIds(jobs) && GetJobById(jobs, id).Some?
    ensures GetJobById(UpdateJobData(jobs, id, f), id)
            == Some(GetJobById(jobs, id).value.(data := f(GetJobById(jobs, id).value.data)))
  {
    var r := UpdateJobData(jobs, id, f);
    var before := GetJobById(jobs, id).value;
    var i :| 0 <= i < |jobs| && jobs[i] == before;
    var after := GetJobById(r, id).value;
    var k :| 0 <= k < |r| && r[k] == after;
    assert jobs[k].id == id;
    assert k == i;
  }

  /** After a delete `getJobById` finds nothing under that id. */
  lemma DeletedJobIsGone(jobs: seq<Job>, id: DocId)
    ensures GetJobById(DeleteJobDoc(jobs, id), id).None?
  {
  }

  /** The applications a job seeker sends from the job page carry no jobId, so no company ever
      sees them listed for a job. */
  lemma ApplicationsWithoutJobIdAreUnlisted(apps: seq<Application>, s: Session, jobId: DocId, a: Application)
    requires a in apps && a.data.jobId.None?
    ensures GetJobApplications(apps, s, jobId).Returned? ==> a !in GetJobApplications(apps, s, jobId).value
  {
  }
}
