/** Lookups and filters over the three tables, which are kept as
    sequences in insertion order, and the well-formedness of each table. */
module Tables {
  import opened Records

  predicate EmailTaken(users: seq<User>, email: string)
  {
    exists u :: u in users && u.email == email
  }

  predicate UserWithRole(users: seq<User>, id: int, role: string)
  {
    exists u :: u in users && u.id == id && u.role == role
  }

  predicate JobExists(jobs: seq<Job>, id: int)
  {
    exists j :: j in jobs && j.id == id
  }

  /** The duplicate check: does `candidate` already hold an application for `job`? */
  predicate HasApplication(apps: seq<Application>, candidate: int, job: int)
  {
    exists a :: a in apps && a.candidateId == candidate && a.jobId == job
  }

  /** The first user whose email is `email`. */
  function FindUserByEmail(users: seq<User>, email: string): (r: Option<User>)
    ensures r.Some? <==> EmailTaken(users, email)
    ensures r.Some? ==> r.value in users && r.value.email == email
  {
    if users == [] then None
    else if users[0].email == email then Some(users[0])
    else FindUserByEmail(users[1..], email)
  }

  /** The first user whose id is `id`. */
  function FindUser(users: seq<User>, id: int): (r: Option<User>)
    ensures r.Some? <==> exists u :: u in users && u.id == id
    ensures r.Some? ==> r.value in users && r.value.id == id
  {
    if users == [] then None
    else if users[0].id == id then Some(users[0])
    else FindUser(users[1..], id)
  }

  /** The first job whose id is `id`. */
  function FindJob(jobs: seq<Job>, id: int): (r: Option<Job>)
    ensures r.Some? <==> JobExists(jobs, id)
    ensures r.Some? ==> r.value in jobs && r.value.id == id
  {
    if jobs == [] then None
    else if jobs[0].id == id then Some(jobs[0])
    else FindJob(jobs[1..], id)
  }

  /** `r` is `s` with some elements dropped: what is left keeps its order
      and occurs no more often than in `s`. */
  predicate Subsequence<T(==)>(r: seq<T>, s: seq<T>)
    decreases |s|
  {
    r == [] || (s != [] && ((r[0] == s[0] && Subsequence(r[1..], s[1..])) || Subsequence(r, s[1..])))
  }

  /** The applications filed by `candidate`, in ledger order. */
  function ByCandidate(apps: seq<Application>, candidate: int): (r: seq<Application>)
    ensures forall a :: a in r <==> a in apps && a.candidateId == candidate
    ensures multiset(r) <= multiset(apps)
    ensures Subsequence(r, apps)
  {
    if apps == [] then []
    else
      var rest := ByCandidate(apps[1..], candidate);
      assert apps == [apps[0]] + apps[1..];
      if apps[0].candidateId == candidate then
        assert ([apps[0]] + rest)[1..] == rest;
        [apps[0]] + rest
      else rest
  }

  /** The ids of the jobs posted by `recruiter`, in catalog order. */
  function JobIdsOf(jobs: seq<Job>, recruiter: int): (r: seq<int>)
    ensures forall id :: id in r <==> exists j :: j in jobs && j.id == id && j.recruiterId == recruiter
    ensures |r| <= |jobs|
  {
    if jobs == [] then []
    else (if jobs[0].recruiterId == recruiter then [jobs[0].id] else [])
         + JobIdsOf(jobs[1..], recruiter)
  }

  /** The applications whose job id is one of `ids`, in ledger order. */
  function ForJobs(apps: seq<Application>, ids: seq<int>): (r: seq<Application>)
    ensures forall a :: a in r <==> a in apps && a.jobId in ids
    ensures multiset(r) <= multiset(apps)
    ensures Subsequence(r, apps)
  {
    if apps == [] then []
    else
      var rest := ForJobs(apps[1..], ids);
      assert apps == [apps[0]] + apps[1..];
      if apps[0].jobId in ids then
        assert ([apps[0]] + rest)[1..] == rest;
        [apps[0]] + rest
      else rest
  }

  /** The ledger's one real invariant: at most one application per
      (candidate, job) pair. */
  predicate PairsUnique(apps: seq<Application>)
  {
    forall i, j :: 0 <= i < j < |apps| ==>
      apps[i].candidateId != apps[j].candidateId || apps[i].jobId != apps[j].jobId
  }

  /** Primary keys are distinct and below the next id to hand out; emails are unique. */
  predicate UsersWellFormed(users: seq<User>, nextId: int)
  {
    && (forall i, j :: 0 <= i < j < |users| ==> users[i].id != users[j].id && users[i].email != users[j].email)
    && (forall i :: 0 <= i < |users| ==> users[i].id < nextId)
  }

  /** Primary keys are distinct and below the next id; every job is owned by a recruiter. */
  predicate JobsWellFormed(jobs: seq<Job>, users: seq<User>, nextId: int)
  {
    && (forall i, j :: 0 <= i < j < |jobs| ==> jobs[i].id != jobs[j].id)
    && (forall i :: 0 <= i < |jobs| ==> jobs[i].id < nextId)
    && (forall i :: 0 <= i < |jobs| ==> UserWithRole(users, jobs[i].recruiterId, Recruiter))
  }

  /** Primary keys are distinct and below the next id; every application
      is by a candidate, for a job of the catalog; pairs are unique. */
  predicate LedgerWellFormed(apps: seq<Application>, users: seq<User>, jobs: seq<Job>, nextId: int)
  {
    && (forall i, j :: 0 <= i < j < |apps| ==> apps[i].id != apps[j].id)
    && (forall i :: 0 <= i < |apps| ==> apps[i].id < nextId)
    && (forall i :: 0 <= i < |apps| ==> UserWithRole(users, apps[i].candidateId, Candidate))
    && (forall i :: 0 <= i < |apps| ==> JobExists(jobs, apps[i].jobId))
    && PairsUnique(apps)
  }

  /** Appending an application for a pair the ledger does not hold keeps
      the ledger well formed, with the id counter moved past the new id. */
  lemma AppendKeepsLedger(apps: seq<Application>, users: seq<User>, jobs: seq<Job>, nextId: int, candidate: User, job: int)
    requires LedgerWellFormed(apps, users, jobs, nextId)
    requires candidate in users && candidate.role == Candidate
    requires JobExists(jobs, job)
    requires !HasApplication(apps, candidate.id, job)
    ensures LedgerWellFormed(apps + [Application(nextId, candidate.id, job)], users, jobs, nextId + 1)
  {
  }
}
