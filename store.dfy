/** The document store the job board talks to, seen through the narrow interface it uses: the
    `jobs` and `applications` collections, equality filters, ordering by a server timestamp
    (newest first), `limit` and `startAfter`. Documents are kept in the order the queries ask for. */
module Store {
  import opened Wrappers
  import opened Seqs

  type DocId = nat

  /** The fields of a job document other than its id and its `postedAt` server timestamp. */
  datatype JobData = JobData(
    title: Option<string>,
    description: Option<string>,
    requirements: string,
    benefits: string,
    location: Option<string>,
    jobType: Option<string>,
    experienceLevel: Option<string>,
    industry: Option<string>,
    salaryMin: Option<int>,
    salaryMax: Option<int>,
    skills: Option<seq<string>>,
    applicationDeadline: Option<int>,
    contactEmail: string,
    companyId: string,
    companyName: Option<string>,
    companyLogo: string,
    companyWebsite: string,
    companyDescription: string,
    isActive: bool,
    applicationsCount: Option<nat>,
    createdAt: int,
    updatedAt: int)

  /** A job document as a query returns it: `{ id: doc.id, ...doc.data() }`. */
  datatype Job = Job(id: DocId, postedAt: int, data: JobData)

  /** `job.applicationsCount || 0`. */
  function ApplicationsOrZero(j: Job): (n: nat)
    ensures j.data.applicationsCount.Some? ==> n == j.data.applicationsCount.value
    ensures j.data.applicationsCount.None? ==> n == 0
  {
    if j.data.applicationsCount.Some? then j.data.applicationsCount.value else 0
  }

  /** What a job seeker submits with an application. */
  datatype ApplicationData = ApplicationData(
    jobId: Option<DocId>,
    coverLetter: string,
    resume: string,
    additionalInfo: string)

  /** An application document. */
  datatype Application = Application(
    id: DocId,
    data: ApplicationData,
    applicantId: string,
    applicantName: string,
    applicantEmail: Option<string>,
    appliedAt: int,
    status: string)

  /** The key a collection is ordered by: a server timestamp, ties broken by document id. */
  datatype Stamp = Stamp(at: int, id: DocId)

  /** `a` comes before `b` when ordering newest first. */
  predicate Later(a: Stamp, b: Stamp)
  {
    a.at > b.at || (a.at == b.at && a.id > b.id)
  }

  function JobStamp(j: Job): Stamp { Stamp(j.postedAt, j.id) }

  function ApplicationStamp(a: Application): Stamp { Stamp(a.appliedAt, a.id) }

  /** `s` is strictly ordered newest first by `key`. */
  ghost predicate Ordered<T>(s: seq<T>, key: T -> Stamp)
  {
    forall i, j :: 0 <= i < j < |s| ==> Later(key(s[i]), key(s[j]))
  }

  /** Every id occurs at most once. */
  ghost predicate UniqueIds(jobs: seq<Job>)
  {
    forall i, j :: 0 <= i < j < |jobs| ==> jobs[i].id != jobs[j].id
  }

  /** Where the store files a new document: before the first older one. */
  function Insert<T(!new)>(s: seq<T>, x: T, key: T -> Stamp): (r: seq<T>)
    ensures |r| == |s| + 1
    ensures forall y :: y in r <==> y in s || y == x
    decreases |s|
  {
    if s == [] || Later(key(x), key(s[0])) then [x] + s
    else
      assert s == [s[0]] + s[1..];
      [s[0]] + Insert(s[1..], x, key)
  }

  /** Inserting a document whose key is new keeps the collection ordered. */
  lemma {:induction false} InsertOrdered<T(!new)>(s: seq<T>, x: T, key: T -> Stamp)
    requires Ordered(s, key) && forall y :: y in s ==> key(y) != key(x)
    ensures Ordered(Insert(s, x, key), key)
    decreases |s|
  {
    if s == [] || Later(key(x), key(s[0])) {
    } else {
      InsertOrdered(s[1..], x, key);
      var r := Insert(s, x, key);
      forall k | 0 < k < |r| ensures Later(key(r[0]), key(r[k])) {
        assert r[k] in Insert(s[1..], x, key);
        if r[k] != x {
          var i :| 0 <= i < |s[1..]| && s[1..][i] == r[k];
          assert s[i + 1] == r[k];
        }
      }
    }
  }

  /** Inserting a job under an id that is not yet used keeps ids unique. */
  lemma {:induction false} InsertUniqueIds(s: seq<Job>, x: Job)
    requires UniqueIds(s) && forall y :: y in s ==> y.id != x.id
    ensures UniqueIds(Insert(s, x, JobStamp))
    decreases |s|
  {
    if s == [] || Later(JobStamp(x), JobStamp(s[0])) {
    } else {
      InsertUniqueIds(s[1..], x);
      var r := Insert(s, x, JobStamp);
      forall k | 0 < k < |r| ensures r[0].id != r[k].id {
        assert r[k] in Insert(s[1..], x, JobStamp);
        if r[k] != x {
          var i :| 0 <= i < |s[1..]| && s[1..][i] == r[k];
          assert s[i + 1] == r[k];
        }
      }
    }
  }

  /** A subsequence of an ordered sequence is ordered. */
  lemma {:induction false} SubseqOrdered<T>(a: seq<T>, b: seq<T>, key: T -> Stamp)
    requires IsSubseq(a, b) && Ordered(b, key)
    ensures Ordered(a, key)
    decreases |b|
  {
    if a != [] {
      if IsSubseq(a, b[1..]) {
        SubseqOrdered(a, b[1..], key);
      } else {
        SubseqOrdered(a[1..], b[1..], key);
        SubseqMembers(a[1..], b[1..]);
        forall j | 0 < j < |a| ensures Later(key(a[0]), key(a[j])) {
          assert a[j] in a[1..];
          var k :| 0 <= k < |b[1..]| && b[1..][k] == a[j];
          assert b[k + 1] == a[j];
        }
      }
    }
  }

  /** A subsequence of a sequence without repeated ids has none either. */
  lemma {:induction false} SubseqUniqueIds(a: seq<Job>, b: seq<Job>)
    requires IsSubseq(a, b) && UniqueIds(b)
    ensures UniqueIds(a)
    decreases |b|
  {
    if a != [] {
      if IsSubseq(a, b[1..]) {
        SubseqUniqueIds(a, b[1..]);
      } else {
        SubseqUniqueIds(a[1..], b[1..]);
        SubseqMembers(a[1..], b[1..]);
        forall j | 0 < j < |a| ensures a[0].id != a[j].id {
          assert a[j] in a[1..];
          var k :| 0 <= k < |b[1..]| && b[1..][k] == a[j];
          assert b[k + 1] == a[j];
        }
      }
    }
  }

  /** Rewrites, with `f`, the data of the job that has the given id (`updateDoc`). */
  function UpdateJobData(jobs: seq<Job>, id: DocId, f: JobData -> JobData): (r: seq<Job>)
    ensures |r| == |jobs|
    ensures forall i :: 0 <= i < |jobs| ==> r[i].id == jobs[i].id && r[i].postedAt == jobs[i].postedAt
    ensures forall i :: 0 <= i < |jobs| && jobs[i].id == id ==> r[i].data == f(jobs[i].data)
    ensures forall i :: 0 <= i < |jobs| && jobs[i].id != id ==> r[i] == jobs[i]
  {
    seq(|jobs|, i requires 0 <= i < |jobs| =>
      if jobs[i].id == id then jobs[i].(data := f(jobs[i].data)) else jobs[i])
  }

  /** The jobs collection after `deleteDoc` of the given id. */
  function DeleteJobDoc(jobs: seq<Job>, id: DocId): (r: seq<Job>)
    ensures IsSubseq(r, jobs)
    ensures forall j :: j in r <==> j in jobs && j.id != id
  {
    Filter(jobs, (j: Job) => j.id != id)
  }

  // ----- Queries -----

  /** The job fields the listing can filter on by equality. */
  datatype Dim = Location | JobType | ExperienceLevel | Industry

  function DimValue(d: JobData, dim: Dim): Option<string>
  {
    match dim
    case Location => d.location
    case JobType => d.jobType
    case ExperienceLevel => d.experienceLevel
    case Industry => d.industry
  }

  /** The query constraints the job board builds: `where(..., '==', ...)`, `orderBy('postedAt',
      'desc')`, `limit(n)` and `startAfter(doc)`. */
  datatype Constraint =
    | ActiveIs(active: bool)
    | DimIs(dim: Dim, value: string)
    | CompanyIs(uid: string)
    | OrderByPostedDesc
    | LimitTo(n: nat)
    | StartAfter(cursor: Job)

  /** A job passes one `where` constraint; the other constraints filter nothing. */
  predicate Satisfies(j: Job, c: Constraint)
  {
    match c
    case ActiveIs(b) => j.data.isActive == b
    case DimIs(dim, v) => DimValue(j.data, dim) == Some(v)
    case CompanyIs(uid) => j.data.companyId == uid
    case _ => true
  }

  predicate SatisfiesAll(j: Job, q: seq<Constraint>)
  {
    forall c :: c in q ==> Satisfies(j, c)
  }

  /** The `where`s of a concatenated query are those of its parts. */
  lemma SatisfiesAllAppend(j: Job, a: seq<Constraint>, b: seq<Constraint>)
    ensures SatisfiesAll(j, a + b) <==> SatisfiesAll(j, a) && SatisfiesAll(j, b)
  {
    assert forall c :: c in a + b <==> c in a || c in b;
  }

  /** A one-constraint query. */
  lemma SatisfiesAllSingle(j: Job, c: Constraint)
    ensures SatisfiesAll(j, [c]) <==> Satisfies(j, c)
  {
    assert c in [c];
  }

  /** The documents that pass every `where` of the query, in collection order. */
  function Selected(jobs: seq<Job>, q: seq<Constraint>): (m: seq<Job>)
    ensures IsSubseq(m, jobs)
    ensures forall j :: j in m <==> j in jobs && SatisfiesAll(j, q)
  {
    Filter(jobs, (j: Job) => SatisfiesAll(j, q))
  }

  /** The first `startAfter` cursor of the query, if any. */
  function CursorOf(q: seq<Constraint>): (c: Option<Job>)
    ensures c.Some? ==> StartAfter(c.value) in q
    ensures c.None? ==> forall k :: k in q ==> !k.StartAfter?
    decreases |q|
  {
    if q == [] then None
    else if q[0].StartAfter? then Some(q[0].cursor)
    else CursorOf(q[1..])
  }

  /** The first `limit` of the query, if any. */
  function LimitOf(q: seq<Constraint>): (n: Option<nat>)
    ensures n.Some? ==> LimitTo(n.value) in q
    ensures n.None? ==> forall k :: k in q ==> !k.LimitTo?
    decreases |q|
  {
    if q == [] then None
    else if q[0].LimitTo? then Some(q[0].n)
    else LimitOf(q[1..])
  }

  /** The first limit of a concatenated query is the first one of its front part, if that
      has any, and otherwise the first one of its back part. */
  lemma {:induction false} LimitOfAppend(a: seq<Constraint>, b: seq<Constraint>)
    ensures LimitOf(a + b) == if LimitOf(a).Some? then LimitOf(a) else LimitOf(b)
    decreases |a|
  {
    if a != [] {
      assert (a + b)[1..] == a[1..] + b;
      LimitOfAppend(a[1..], b);
    } else {
      assert a + b == b;
    }
  }

  /** The same for the cursor. */
  lemma {:induction false} CursorOfAppend(a: seq<Constraint>, b: seq<Constraint>)
    ensures CursorOf(a + b) == if CursorOf(a).Some? then CursorOf(a) else CursorOf(b)
    decreases |a|
  {
    if a != [] {
      assert (a + b)[1..] == a[1..] + b;
      CursorOfAppend(a[1..], b);
    } else {
      assert a + b == b;
    }
  }

  /** The documents after the cursor, in the newest-first order. */
  function AfterCursor(m: seq<Job>, cursor: Job): (r: seq<Job>)
    ensures IsSubseq(r, m)
    ensures forall j :: j in r <==> j in m && Later(JobStamp(cursor), JobStamp(j))
  {
    Filter(m, (j: Job) => Later(JobStamp(cursor), JobStamp(j)))
  }

  /** `getDocs(query(collection(db, 'jobs'), ...q))` over a collection kept newest first:
      filter by every `where`, skip up to the cursor, then cut at the limit. */
  function RunQuery(jobs: seq<Job>, q: seq<Constraint>): (page: seq<Job>)
    ensures LimitOf(q).Some? ==> |page| <= LimitOf(q).value
    ensures IsSubseq(page, Selected(jobs, q))
    ensures forall j :: j in page ==> j in jobs && SatisfiesAll(j, q)
    ensures forall j :: j in page && CursorOf(q).Some? ==> Later(JobStamp(CursorOf(q).value), JobStamp(j))
  {
    var m := Selected(jobs, q);
    var after := if CursorOf(q).Some? then AfterCursor(m, CursorOf(q).value) else m;
    SubseqRefl(m);
    var page := if LimitOf(q).Some? then Take(after, LimitOf(q).value) else after;
    PrefixSubseq(page, after);
    SubseqTrans(page, after, m);
    SubseqMembers(page, after);
    page
  }

  /** A prefix is a subsequence. */
  lemma {:induction false} PrefixSubseq<T>(a: seq<T>, b: seq<T>)
    requires a <= b
    ensures IsSubseq(a, b)
    decreases |b|
  {
    if a != [] {
      PrefixSubseq(a[1..], b[1..]);
    }
  }

  /** Every page of a query is ordered newest first and free of repeated ids. */
  lemma QueryPageOrdered(jobs: seq<Job>, q: seq<Constraint>)
    requires Ordered(jobs, JobStamp) && UniqueIds(jobs)
    ensures Ordered(RunQuery(jobs, q), JobStamp) && UniqueIds(RunQuery(jobs, q))
    ensures IsSubseq(RunQuery(jobs, q), jobs)
  {
    SubseqTrans(RunQuery(jobs, q), Selected(jobs, q), jobs);
    SubseqOrdered(RunQuery(jobs, q), jobs, JobStamp);
    SubseqUniqueIds(RunQuery(jobs, q), jobs);
  }

  /** In an ordered sequence, the documents after the one at position `k` are exactly the suffix
      that follows it. */
  lemma {:induction false} AfterCursorIsSuffix(m: seq<Job>, k: nat)
    requires Ordered(m, JobStamp) && k < |m|
    ensures AfterCursor(m, m[k]) == m[k + 1..]
  {
    var p := (j: Job) => Later(JobStamp(m[k]), JobStamp(j));
    assert m == m[..k + 1] + m[k + 1..];
    FilterAppend(m[..k + 1], m[k + 1..], p);
    FilterKeepsAll(m[k + 1..], p);
    forall x | x in m[..k + 1] ensures !p(x) {
      var i :| 0 <= i < k + 1 && m[..k + 1][i] == x;
      assert m[i] == x;
    }
    FilterEmptyIff(m[..k + 1], p);
  }

  // ----- The database -----

  /** The two collections and the id allocator of the store. */
  class Database {
    var jobs: seq<Job>
    var applications: seq<Application>
    var nextId: DocId

    /** Both collections are kept newest first, and every id is unique and already allocated. */
    ghost predicate Valid()
      reads this
    {
      && Ordered(jobs, JobStamp)
      && Ordered(applications, ApplicationStamp)
      && UniqueIds(jobs)
      && (forall j :: j in jobs ==> j.id < nextId)
      && (forall a :: a in applications ==> a.id < nextId)
    }

    constructor (jobs0: seq<Job>, applications0: seq<Application>, nextId0: DocId)
      requires Ordered(jobs0, JobStamp) && Ordered(applications0, ApplicationStamp) && UniqueIds(jobs0)
      requires forall j :: j in jobs0 ==> j.id < nextId0
      requires forall a :: a in applications0 ==> a.id < nextId0
      ensures Valid()
      ensures jobs == jobs0 && applications == applications0 && nextId == nextId0
    {
      jobs, applications, nextId := jobs0, applications0, nextId0;
    }

    /** `addDoc(collection(db, 'jobs'), data)` with `postedAt` set to the server time `now`. */
    method AddJob(data: JobData, now: int) returns (id: DocId)
      requires Valid()
      modifies this
      ensures Valid()
      ensures id == old(nextId) && nextId == old(nextId) + 1
      ensures jobs == Insert(old(jobs), Job(id, now, data), JobStamp)
      ensures applications == old(applications)
    {
      id := nextId;
      var job := Job(id, now, data);
      assert forall j :: j in jobs ==> JobStamp(j) != JobStamp(job);
      InsertOrdered(jobs, job, JobStamp);
      InsertUniqueIds(jobs, job);
      jobs := Insert(jobs, job, JobStamp);
      nextId := nextId + 1;
    }

    /** `addDoc(collection(db, 'applications'), record)` for a record that takes the next id. */
    method AddApplication(a: Application)
      requires Valid() && a.id == nextId
      modifies this
      ensures Valid()
      ensures nextId == old(nextId) + 1
      ensures applications == Insert(old(applications), a, ApplicationStamp)
      ensures jobs == old(jobs)
    {
      assert forall b :: b in applications ==> ApplicationStamp(b) != ApplicationStamp(a);
      InsertOrdered(applications, a, ApplicationStamp);
      applications := Insert(applications, a, ApplicationStamp);
      nextId := nextId + 1;
    }

    /** `updateDoc(doc(db, 'jobs', id), ...)` on a document that exists. */
    method UpdateJob(id: DocId, f: JobData -> JobData)
      requires Valid()
      modifies this
      ensures Valid()
      ensures jobs == UpdateJobData(old(jobs), id, f)
      ensures applications == old(applications) && nextId == old(nextId)
    {
      var r := UpdateJobData(jobs, id, f);
      assert forall i :: 0 <= i < |jobs| ==> JobStamp(r[i]) == JobStamp(jobs[i]);
      assert forall j :: j in r ==> j.id < nextId by {
        forall j | j in r ensures j.id < nextId {
          var i :| 0 <= i < |r| && r[i] == j;
          assert jobs[i] in jobs;
        }
      }
      jobs := r;
    }

    /** `deleteDoc(doc(db, 'jobs', id))`; deleting a missing document is no error. */
    method DeleteJob(id: DocId)
      requires Valid()
      modifies this
      ensures Valid()
      ensures jobs == DeleteJobDoc(old(jobs), id)
      ensures applications == old(applications) && nextId == old(nextId)
    {
      var r := DeleteJobDoc(jobs, id);
      SubseqOrdered(r, jobs, JobStamp);
      SubseqUniqueIds(r, jobs);
      jobs := r;
    }
  }
}
