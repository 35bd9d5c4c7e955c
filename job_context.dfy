/** The shared job state: the fixed catalogue, the append-only ledger of
    decisions, the stored filter settings and sort key, and the two derived
    views (chosen jobs, refused jobs). */
module JobContext {
  import opened Types

  /** The user id every application is recorded under. */
  const CurrentUser: string := "current-user"

  datatype SortOption = Wage | Commute | Date

  datatype JobFilters = JobFilters(
    jobTypes: seq<string>,
    wageRange: (int, int),
    japaneseLevels: seq<string>,
    workDays: seq<string>)

  /** The filters the context starts with. */
  function InitialFilters(): JobFilters {
    JobFilters([], (0, 5000), [], [])
  }

  /** The record `addApplication` builds. */
  function NewApplication(jobId: string, status: Status, id: string, appliedAt: int): Application {
    Application(id, jobId, CurrentUser, status, appliedAt)
  }

  /** `jobs.filter(job => ids.includes(job.id))` when `keep` holds, and
      `jobs.filter(job => !ids.includes(job.id))` otherwise. */
  function Select(jobs: seq<Job>, ids: seq<string>, keep: bool): (r: seq<Job>)
    ensures |r| <= |jobs|
    ensures forall j :: j in r <==> j in jobs && (j.id in ids) == keep
  {
    if jobs == [] then []
    else if (jobs[0].id in ids) == keep then [jobs[0]] + Select(jobs[1..], ids, keep)
    else Select(jobs[1..], ids, keep)
  }

  /** `a` is `b` with some entries left out, the rest in the same order. */
  ghost predicate Subsequence(a: seq<Job>, b: seq<Job>) {
    if a == [] then true
    else if b == [] then false
    else if a[0] == b[0] then Subsequence(a[1..], b[1..])
    else Subsequence(a, b[1..])
  }

  /** A selection keeps catalogue order, and each catalogue entry occurs in it
      exactly as often as in the catalogue when it is selected, and not at
      all otherwise: a job is never listed twice because several ids name it. */
  lemma {:induction false} SelectSpec(jobs: seq<Job>, ids: seq<string>, keep: bool)
    ensures Subsequence(Select(jobs, ids, keep), jobs)
    ensures forall j :: multiset(Select(jobs, ids, keep))[j]
                        == if (j.id in ids) == keep then multiset(jobs)[j] else 0
  {
    if jobs != [] {
      SelectSpec(jobs[1..], ids, keep);
      assert jobs == [jobs[0]] + jobs[1..];
      var rest := Select(jobs[1..], ids, keep);
      if (jobs[0].id in ids) == keep {
        assert Select(jobs, ids, keep)[1..] == rest;
      } else {
        SubsequenceSkipAny(rest, jobs);
      }
    }
  }

  /** Dropping the first entry of a subsequence keeps it one. */
  lemma {:induction false} SubsequenceDropHead(a: seq<Job>, b: seq<Job>)
    requires a != [] && Subsequence(a, b)
    ensures Subsequence(a[1..], b)
  {
    if b != [] {
      if a[0] == b[0] {
        if a[1..] != [] {
          SubsequenceDropHead(a[1..], b[1..]);
        }
        SubsequenceSkipAny(a[1..], b);
      } else {
        SubsequenceDropHead(a, b[1..]);
        SubsequenceSkipAny(a[1..], b);
      }
    }
  }

  /** Allowing one more leading entry in the larger sequence keeps a
      subsequence one. */
  lemma {:induction false} SubsequenceSkipAny(a: seq<Job>, b: seq<Job>)
    requires b != [] && Subsequence(a, b[1..])
    ensures Subsequence(a, b)
  {
    if a != [] && a[0] == b[0] {
      SubsequenceDropHead(a, b[1..]);
    }
  }

  /** An application with the given job id and status is in the ledger. */
  predicate HasDecision(apps: seq<Application>, jobId: string, status: Status) {
    exists i :: 0 <= i < |apps| && apps[i].jobId == jobId && apps[i].status == status
  }

  /** `apps.filter(app => app.status === status).map(app => app.jobId)` */
  function IdsWithStatus(apps: seq<Application>, status: Status): (r: seq<string>)
    ensures |r| <= |apps|
    ensures forall id :: id in r <==> HasDecision(apps, id, status)
  {
    if apps == [] then []
    else
      var rest := IdsWithStatus(apps[1..], status);
      assert forall id :: HasDecision(apps, id, status) <==>
        (apps[0].jobId == id && apps[0].status == status) || HasDecision(apps[1..], id, status) by {
        forall id ensures HasDecision(apps, id, status) ==>
          (apps[0].jobId == id && apps[0].status == status) || HasDecision(apps[1..], id, status) {
          if HasDecision(apps, id, status) {
            var i :| 0 <= i < |apps| && apps[i].jobId == id && apps[i].status == status;
            if i > 0 { assert apps[1..][i - 1] == apps[i]; }
          }
        }
        forall id | HasDecision(apps[1..], id, status) ensures HasDecision(apps, id, status) {
          var i :| 0 <= i < |apps[1..]| && apps[1..][i].jobId == id && apps[1..][i].status == status;
          assert apps[i + 1] == apps[1..][i];
        }
      }
      if apps[0].status == status then [apps[0].jobId] + rest else rest
  }

  /** The jobs of the catalogue, in catalogue order, that some application
      records with `status` (`getChosenJobs`, `getRefusedJobs`). */
  function JobsWithStatus(jobs: seq<Job>, apps: seq<Application>, status: Status): (r: seq<Job>)
    ensures |r| <= |jobs|
    ensures forall j :: j in r <==> j in jobs && HasDecision(apps, j.id, status)
  {
    Select(jobs, IdsWithStatus(apps, status), true)
  }

  /** The derived view holds each catalogue entry whose id has an application
      with that status, as often as the catalogue does, and nothing else; it
      keeps catalogue order. */
  lemma JobsWithStatusSpec(jobs: seq<Job>, apps: seq<Application>, status: Status)
    ensures Subsequence(JobsWithStatus(jobs, apps, status), jobs)
    ensures forall j :: multiset(JobsWithStatus(jobs, apps, status))[j]
                        == if HasDecision(apps, j.id, status) then multiset(jobs)[j] else 0
  {
    SelectSpec(jobs, IdsWithStatus(apps, status), true);
  }

  /** A catalogue entry is in a view exactly when the ledger holds a decision
      with that status for its id; the view never lists it more often than
      the catalogue does. */
  lemma InViewIff(jobs: seq<Job>, apps: seq<Application>, status: Status, j: Job)
    ensures j in JobsWithStatus(jobs, apps, status) <==> j in jobs && HasDecision(apps, j.id, status)
    ensures multiset(JobsWithStatus(jobs, apps, status))[j] <= multiset(jobs)[j]
  {
    JobsWithStatusSpec(jobs, apps, status);
  }

  /** Recording a decision a second time for the same job adds a second
      record, but the views do not change. */
  lemma DuplicateRecordKeepsViews(jobs: seq<Job>, apps: seq<Application>, a: Application, b: Application, status: Status)
    requires a.jobId == b.jobId && a.status == b.status
    ensures |apps + [a] + [b]| == |apps + [a]| + 1
    ensures JobsWithStatus(jobs, apps + [a] + [b], status) == JobsWithStatus(jobs, apps + [a], status)
  {
    var once := apps + [a];
    var twice := once + [b];
    forall id ensures HasDecision(twice, id, status) <==> HasDecision(once, id, status) {
      if HasDecision(twice, id, status) {
        var i :| 0 <= i < |twice| && twice[i].jobId == id && twice[i].status == status;
        if i == |once| {
          assert once[|apps|] == a;
        } else {
          assert once[i] == twice[i];
        }
      }
      if HasDecision(once, id, status) {
        var i :| 0 <= i < |once| && once[i].jobId == id && once[i].status == status;
        assert twice[i] == once[i];
      }
    }
    SelectSameMembership(jobs, IdsWithStatus(twice, status), IdsWithStatus(once, status), true);
  }

  /** A selection only depends on which ids are listed. */
  lemma {:induction false} SelectSameMembership(jobs: seq<Job>, ids1: seq<string>, ids2: seq<string>, keep: bool)
    requires forall id :: id in ids1 <==> id in ids2
    ensures Select(jobs, ids1, keep) == Select(jobs, ids2, keep)
  {
    if jobs != [] {
      SelectSameMembership(jobs[1..], ids1, ids2, keep);
    }
  }

  /** The context's state. `jobs` is a constant: the catalogue has no setter. */
  class JobStore {
    const jobs: seq<Job>
    var applications: seq<Application>
    var filters: JobFilters
    var sortBy: SortOption

    /** The provider starts with no applications, empty filter lists, the
        wage range 0..5000 and the sort key `date`. */
    constructor (catalogue: seq<Job>)
      ensures jobs == catalogue
      ensures applications == []
      ensures filters.jobTypes == [] && filters.japaneseLevels == [] && filters.workDays == []
      ensures filters.wageRange == (0, 5000)
      ensures filters == InitialFilters()
      ensures sortBy == Date
    {
      jobs := catalogue;
      applications := [];
      filters := InitialFilters();
      sortBy := Date;
    }

    /** Appends one record with the given job id and status, for the current
        user, at the end of the ledger; it does not look for an earlier record
        of the same job. `id` and `appliedAt` stand for the clock readings. */
    method AddApplication(jobId: string, status: Status, id: string, appliedAt: int)
      modifies this`applications
      ensures |applications| == |old(applications)| + 1
      ensures applications[..|old(applications)|] == old(applications)
      ensures applications[|old(applications)|] == Application(id, jobId, CurrentUser, status, appliedAt)
    {
      applications := applications + [NewApplication(jobId, status, id, appliedAt)];
    }

    /** `getChosenJobs()`: the catalogue entries with a `chosen` record. */
    function ChosenJobs(): (r: seq<Job>)
      reads this
      ensures forall j :: j in r <==> j in jobs && HasDecision(applications, j.id, Chosen)
    {
      JobsWithStatus(jobs, applications, Chosen)
    }

    /** `getRefusedJobs()`: the catalogue entries with a `refused` record. */
    function RefusedJobs(): (r: seq<Job>)
      reads this
      ensures forall j :: j in r <==> j in jobs && HasDecision(applications, j.id, Refused)
    {
      JobsWithStatus(jobs, applications, Refused)
    }

    method SetFilters(f: JobFilters)
      modifies this`filters
      ensures filters == f
    {
      filters := f;
    }

    method SetSortBy(s: SortOption)
      modifies this`sortBy
      ensures sortBy == s
    {
      sortBy := s;
    }
  }

  /** Two calls with the same job id leave two records for it. */
  method AddTwice(store: JobStore, jobId: string, status: Status, id1: string, id2: string, at1: int, at2: int)
    modifies store
    ensures |store.applications| == |old(store.applications)| + 2
    ensures store.applications[|old(store.applications)|].jobId == jobId
    ensures store.applications[|old(store.applications)| + 1].jobId == jobId
  {
    store.AddApplication(jobId, status, id1, at1);
    store.AddApplication(jobId, status, id2, at2);
  }
}
