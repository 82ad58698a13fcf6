/** The job seeker's dashboard: their applications, the status counts shown over them and the
    five-application preview. */
module UserDashboard {
  import opened Wrappers
  import opened Seqs
  import opened Session
  import opened Store
  import opened JobContext

  /** How many applications the preview lists (`applications.slice(0, 5)`, taken by
      Seqs.Take). */
  const PreviewSize: nat := 5

  /** The test `app => app.status === status`. */
  function HasStatus(status: string): Application -> bool
  {
    (a: Application) => a.status == status
  }

  /** `applications.filter(app => app.status === status).length`: all of them exactly when
      every application has that status, none exactly when no application has it. */
  function CountStatus(apps: seq<Application>, status: string): (n: nat)
    ensures n <= |apps|
    ensures n == |apps| <==> forall a :: a in apps ==> a.status == status
    ensures n == 0 <==> forall a :: a in apps ==> a.status != status
  {
    FilterFullIff(apps, HasStatus(status));
    FilterEmptyIff(apps, HasStatus(status));
    |Filter(apps, HasStatus(status))|
  }

  /** Counting over two lists adds up, and one application counts one when it has the status,
      nothing otherwise; together these fix the count of every list. */
  lemma CountStatusAppend(a: seq<Application>, b: seq<Application>, status: string)
    ensures CountStatus(a + b, status) == CountStatus(a, status) + CountStatus(b, status)
  {
    FilterAppend(a, b, HasStatus(status));
  }

  lemma CountStatusSingle(x: Application, status: string)
    ensures CountStatus([x], status) == if x.status == status then 1 else 0
  {
    FilterSingle(x, HasStatus(status));
  }

  /** The "Pending Reviews" figure: zero exactly when no application is pending. */
  function PendingCount(apps: seq<Application>): (n: nat)
    ensures n <= |apps|
    ensures n == 0 <==> forall a :: a in apps ==> a.status != "pending"
  {
    CountStatus(apps, "pending")
  }

  /** The "Interviews Scheduled" figure: zero exactly when no application is accepted. */
  function AcceptedCount(apps: seq<Application>): (n: nat)
    ensures n <= |apps|
    ensures n == 0 <==> forall a :: a in apps ==> a.status != "accepted"
  {
    CountStatus(apps, "accepted")
  }

  /** Counts of two different statuses never add up to more than the applications shown. */
  lemma {:induction false} StatusCountsFit(apps: seq<Application>, s1: string, s2: string)
    requires s1 != s2
    ensures CountStatus(apps, s1) + CountStatus(apps, s2) <= |apps|
    decreases |apps|
  {
    if apps != [] {
      StatusCountsFit(apps[1..], s1, s2);
    }
  }

  /** pending + accepted <= total. */
  lemma PendingAndAcceptedFit(apps: seq<Application>)
    ensures PendingCount(apps) + AcceptedCount(apps) <= |apps|
  {
    StatusCountsFit(apps, "pending", "accepted");
  }

  /** Filing one more document adds one to a count exactly when the document passes. */
  lemma {:induction false} FilterInsert(s: seq<Application>, x: Application, p: Application -> bool)
    ensures |Filter(Insert(s, x, ApplicationStamp), p)| == |Filter(s, p)| + (if p(x) then 1 else 0)
    decreases |s|
  {
    if s != [] && !Later(ApplicationStamp(x), ApplicationStamp(s[0])) {
      FilterInsert(s[1..], x, p);
      assert Insert(s, x, ApplicationStamp) == [s[0]] + Insert(s[1..], x, ApplicationStamp);
    } else {
      assert Insert(s, x, ApplicationStamp) == [x] + s;
    }
  }

  /** A new application arrives as pending: it adds one to the pending count and nothing to
      the accepted count. */
  lemma NewApplicationIsPending(apps: seq<Application>, a: Application)
    requires a.status == "pending"
    ensures PendingCount(Insert(apps, a, ApplicationStamp)) == PendingCount(apps) + 1
    ensures AcceptedCount(Insert(apps, a, ApplicationStamp)) == AcceptedCount(apps)
  {
    FilterInsert(apps, a, HasStatus("pending"));
    FilterInsert(apps, a, HasStatus("accepted"));
  }

  /** The dashboard's state. */
  class UserDashboardScreen {
    var applications: seq<Application>
    var loading: bool

    constructor ()
      ensures applications == [] && loading
    {
      applications := [];
      loading := true;
    }

    /** The effect that loads the signed-in job seeker's applications. */
    method Load(db: Database, s: Session)
      modifies this
      ensures applications == GetUserApplications(db.applications, s) && !loading
    {
      applications := GetUserApplications(db.applications, s);
      loading := false;
    }
  }
}
