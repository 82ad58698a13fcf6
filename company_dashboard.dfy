/** The company dashboard: the company's own jobs, the totals shown over them, the five-job
    preview and each job's badge and count. */
module CompanyDashboard {
  import opened Wrappers
  import opened Seqs
  import opened Session
  import opened Store
  import opened JobContext

  /** How many jobs the preview lists (`jobs.slice(0, 5)`, taken by Seqs.Take). */
  const PreviewSize: nat := 5

  /** `jobs.reduce((sum, job) => sum + (job.applicationsCount || 0), 0)`. */
  function TotalApplications(jobs: seq<Job>): (n: nat)
    ensures jobs == [] ==> n == 0
    ensures forall j :: j in jobs ==> ApplicationsOrZero(j) <= n
    decreases |jobs|
  {
    if jobs == [] then 0
    else
      var rest := TotalApplications(jobs[1..]);
      assert forall j :: j in jobs ==> j == jobs[0] || j in jobs[1..];
      ApplicationsOrZero(jobs[0]) + rest
  }

  /** The total over two lists is the sum of their totals. */
  lemma {:induction false} TotalAppend(a: seq<Job>, b: seq<Job>)
    ensures TotalApplications(a + b) == TotalApplications(a) + TotalApplications(b)
    decreases |a|
  {
    if a != [] {
      assert (a + b)[1..] == a[1..] + b;
      TotalAppend(a[1..], b);
    } else {
      assert a + b == b;
    }
  }

  /** A one-job list totals that job's count; with TotalAppend this fixes the total of every
      list as the sum of the counts. */
  lemma TotalSingle(j: Job)
    ensures TotalApplications([j]) == ApplicationsOrZero(j)
  {
    assert [j][1..] == [];
  }

  /** One more application on a listed job raises the total by exactly one. */
  lemma {:induction false} ApplyingRaisesTotal(jobs: seq<Job>, id: DocId)
    requires UniqueIds(jobs) && GetJobById(jobs, id).Some?
    ensures TotalApplications(UpdateJobData(jobs, id, CountOneMore)) == TotalApplications(jobs) + 1
    decreases |jobs|
  {
    var r := UpdateJobData(jobs, id, CountOneMore);
    assert r[1..] == UpdateJobData(jobs[1..], id, CountOneMore);
    if jobs[0].id == id {
      assert forall j :: j in jobs[1..] ==> j.id != id by {
        forall k | 0 <= k < |jobs[1..]| ensures jobs[1..][k].id != id {
          assert jobs[1..][k] == jobs[k + 1];
        }
      }
      UnchangedWithoutId(jobs[1..], id);
    } else {
      assert GetJobById(jobs[1..], id).Some?;
      assert UniqueIds(jobs[1..]) by {
        forall i, k | 0 <= i < k < |jobs[1..]| ensures jobs[1..][i].id != jobs[1..][k].id {
          assert jobs[1..][i] == jobs[i + 1] && jobs[1..][k] == jobs[k + 1];
        }
      }
      ApplyingRaisesTotal(jobs[1..], id);
    }
  }

  /** An update of an id no job has changes nothing. */
  lemma UnchangedWithoutId(jobs: seq<Job>, id: DocId)
    requires forall j :: j in jobs ==> j.id != id
    ensures UpdateJobData(jobs, id, CountOneMore) == jobs
  {
    assert forall k :: 0 <= k < |jobs| ==> jobs[k] in jobs;
  }

  /** The activity test of the dashboard's count. */
  predicate IsActive(j: Job) { j.data.isActive }

  /** `jobs.filter(job => job.isActive).length`: all of them exactly when every job is active,
      none exactly when no job is. */
  function ActiveJobs(jobs: seq<Job>): (n: nat)
    ensures n <= |jobs|
    ensures n == |jobs| <==> forall j :: j in jobs ==> j.data.isActive
    ensures n == 0 <==> forall j :: j in jobs ==> !j.data.isActive
  {
    FilterFullIff(jobs, IsActive);
    FilterEmptyIff(jobs, IsActive);
    |Filter(jobs, IsActive)|
  }

  /** Counting over two lists adds up, and one job counts one when active, nothing otherwise;
      together these fix the count of every list. */
  lemma ActiveJobsAppend(a: seq<Job>, b: seq<Job>)
    ensures ActiveJobs(a + b) == ActiveJobs(a) + ActiveJobs(b)
  {
    FilterAppend(a, b, IsActive);
  }

  lemma ActiveJobsSingle(j: Job)
    ensures ActiveJobs([j]) == if j.data.isActive then 1 else 0
  {
    FilterSingle(j, IsActive);
  }

  /** The status badge of a job. */
  function StatusBadge(j: Job): (badge: string)
    ensures badge == "Active" <==> j.data.isActive
    ensures badge == "Inactive" <==> !j.data.isActive
  {
    if j.data.isActive then "Active" else "Inactive"
  }

  /** The dashboard's state. */
  class CompanyDashboardScreen {
    var jobs: seq<Job>
    var loading: bool

    constructor ()
      ensures jobs == [] && loading
    {
      jobs := [];
      loading := true;
    }

    /** The effect that loads the company's jobs. */
    method Load(db: Database, s: Session)
      modifies this
      ensures jobs == GetCompanyJobs(db.jobs, s) && !loading
    {
      jobs := GetCompanyJobs(db.jobs, s);
      loading := false;
    }
  }
}
