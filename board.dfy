/** The job board's endpoints over one database session: the session is an
    object holding the three tables and their id counters; each endpoint
    that writes is a method, each query a function of the tables. */
module Board {
  import opened Records
  import opened Tables
  import opened Workflow

  class JobBoard {
    var users: seq<User>
    var jobs: seq<Job>
    var applications: seq<Application>
    /** The ids the database hands to the next row of each table. */
    var nextUserId: int
    var nextJobId: int
    var nextApplicationId: int
    /** Every mail handed to the mailer, in order; delivery is not modelled. */
    ghost var outbox: seq<Mail>

    ghost predicate Valid()
      reads this
    {
      && UsersWellFormed(users, nextUserId)
      && JobsWellFormed(jobs, users, nextJobId)
      && LedgerWellFormed(applications, users, jobs, nextApplicationId)
    }

    constructor ()
      ensures Valid()
      ensures users == [] && jobs == [] && applications == [] && outbox == []
      ensures nextUserId == 1 && nextJobId == 1 && nextApplicationId == 1
    {
      users, jobs, applications := [], [], [];
      nextUserId, nextJobId, nextApplicationId := 1, 1, 1;
      outbox := [];
    }

    /** Registers a user under a new email; `hashed` is the credential
        hasher's output for the submitted password. */
    method Signup(email: string, hashed: string, role: string) returns (r: Result<()>)
      requires Valid()
      modifies this
      ensures Valid()
      ensures jobs == old(jobs) && applications == old(applications) && outbox == old(outbox)
      ensures nextJobId == old(nextJobId) && nextApplicationId == old(nextApplicationId)
      ensures EmailTaken(old(users), email) ==>
                r == Err(EmailAlreadyRegistered) && users == old(users) && nextUserId == old(nextUserId)
      ensures !EmailTaken(old(users), email) ==>
                && r == Ok(())
                && users == old(users) + [User(old(nextUserId), email, hashed, role)]
                && nextUserId == old(nextUserId) + 1
    {
      var existing := FindUserByEmail(users, email);
      if existing.Some? {
        return Err(EmailAlreadyRegistered);
      }
      var user := User(nextUserId, email, hashed, role);
      GrowUsersKeepsTables(users, user, jobs, applications, nextJobId, nextApplicationId);
      users := users + [user];
      nextUserId := nextUserId + 1;
      r := Ok(());
    }

    /** The user id a login would put in the token's subject claim: that of
        the user with the given email, when `verify` accepts the password
        against the stored hash. */
    function Login(email: string, password: string, verify: (string, string) -> bool): (r: Result<int>)
      reads this
      ensures r.Err? ==> r.error == InvalidCredentials
      ensures r.Ok? ==> exists u :: u in users && u.email == email && verify(password, u.password) && r.value == u.id
    {
      match FindUserByEmail(users, email)
      case None => Err(InvalidCredentials)
      case Some(u) => if verify(password, u.password) then Ok(u.id) else Err(InvalidCredentials)
    }

    /** Adds a job owned by the caller, who must be a recruiter. */
    method PostJob(caller: User, title: string, description: string) returns (r: Result<Job>)
      requires Valid() && caller in users
      modifies this
      ensures Valid()
      ensures users == old(users) && applications == old(applications) && outbox == old(outbox)
      ensures nextUserId == old(nextUserId) && nextApplicationId == old(nextApplicationId)
      ensures caller.role != Recruiter ==>
                r == Err(Forbidden(OnlyRecruitersPost)) && jobs == old(jobs) && nextJobId == old(nextJobId)
      ensures caller.role == Recruiter ==>
                && r == Ok(Job(old(nextJobId), title, description, caller.id))
                && jobs == old(jobs) + [r.value]
                && nextJobId == old(nextJobId) + 1
    {
      if caller.role != Recruiter {
        return Err(Forbidden(OnlyRecruitersPost));
      }
      var job := Job(nextJobId, title, description, caller.id);
      GrowJobsKeepsLedger(applications, users, jobs, job, nextApplicationId);
      jobs := jobs + [job];
      nextJobId := nextJobId + 1;
      r := Ok(job);
    }

    /** The whole catalog, in insertion order; no role is needed. */
    function ListJobs(): (r: seq<Job>)
      reads this
      ensures r == jobs
    {
      jobs
    }

    /** One application: the role is checked first, then the job, then the
        pair; the first failure wins and leaves every table as it was. */
    method ApplyJob(caller: User, jobId: int) returns (r: Result<()>)
      requires Valid() && caller in users
      modifies this
      ensures Valid()
      ensures users == old(users) && jobs == old(jobs)
      ensures nextUserId == old(nextUserId) && nextJobId == old(nextJobId)
      ensures caller.role != Candidate ==> r == Err(Forbidden(OnlyCandidatesApply))
      ensures caller.role == Candidate && !JobExists(old(jobs), jobId) ==> r == Err(JobNotFound)
      ensures (caller.role == Candidate && JobExists(old(jobs), jobId)
               && HasApplication(old(applications), caller.id, jobId)) ==> r == Err(AlreadyApplied)
      ensures (caller.role == Candidate && JobExists(old(jobs), jobId)
               && !HasApplication(old(applications), caller.id, jobId)) ==> r.Ok?
      ensures r.Err? ==>
                && applications == old(applications)
                && nextApplicationId == old(nextApplicationId)
                && outbox == old(outbox)
      ensures r.Ok? ==>
                && caller.role == Candidate && JobExists(jobs, jobId)
                && !HasApplication(old(applications), caller.id, jobId)
                && applications == old(applications) + [Application(old(nextApplicationId), caller.id, jobId)]
                && nextApplicationId == old(nextApplicationId) + 1
                && outbox == old(outbox) + Notices(users, caller, FindJob(jobs, jobId).value)
                && HasApplication(applications, caller.id, jobId)
    {
      if caller.role != Candidate {
        return Err(Forbidden(OnlyCandidatesApply));
      }
      match Admit(jobs, applications, caller.id, jobId) {
        case Err(e) =>
          r := Err(e);
        case Ok(job) =>
          AppendKeepsLedger(applications, users, jobs, nextApplicationId, caller, jobId);
          Record(caller, job);
          assert applications[|applications| - 1].jobId == jobId;
          r := Ok(());
      }
    }

    /** Many applications in one request: the role is checked once, then
        each id is applied or skipped in turn, each application visible to
        the duplicate checks of the ids after it. */
    method ApplyMultipleJobs(caller: User, jobIds: seq<int>) returns (r: Result<BulkReply>)
      requires Valid() && caller in users
      modifies this
      ensures Valid()
      ensures users == old(users) && jobs == old(jobs)
      ensures nextUserId == old(nextUserId) && nextJobId == old(nextJobId)
      ensures caller.role != Candidate ==>
                && r == Err(Forbidden(OnlyCandidatesApply))
                && applications == old(applications)
                && nextApplicationId == old(nextApplicationId)
                && outbox == old(outbox)
      ensures caller.role == Candidate ==>
                var b := Bulk(old(users), old(jobs), caller, old(applications), old(nextApplicationId), jobIds);
                && r == Ok(BulkReply(b.applied, b.skipped))
                && applications == b.ledger
                && nextApplicationId == b.nextId
                && outbox == old(outbox) + b.mails
    {
      if caller.role != Candidate {
        return Err(Forbidden(OnlyCandidatesApply));
      }
      var reply := ApplyEach(caller, jobIds);
      BulkKeepsLedger(old(users), old(jobs), caller, old(applications), old(nextApplicationId), jobIds);
      r := Ok(reply);
    }

    /** The loop of the bulk endpoint: every id is checked against the
        session as it stands, so applications added earlier in the pass
        count as existing for the ids after them. */
    method ApplyEach(caller: User, jobIds: seq<int>) returns (reply: BulkReply)
      modifies this
      ensures users == old(users) && jobs == old(jobs)
      ensures nextUserId == old(nextUserId) && nextJobId == old(nextJobId)
      ensures var b := Bulk(users, jobs, caller, old(applications), old(nextApplicationId), jobIds);
              && reply == BulkReply(b.applied, b.skipped)
              && applications == b.ledger
              && nextApplicationId == b.nextId
              && outbox == old(outbox) + b.mails
    {
      var applied: seq<int> := [];
      var skipped: seq<Skip> := [];
      ghost var mails: seq<Mail> := [];
      ghost var ledger0, next0 := applications, nextApplicationId;
      var i := 0;
      while i < |jobIds|
        invariant 0 <= i <= |jobIds|
        invariant users == old(users) && jobs == old(jobs)
        invariant nextUserId == old(nextUserId) && nextJobId == old(nextJobId)
        invariant outbox == old(outbox) + mails
        invariant Bulk(users, jobs, caller, ledger0, next0, jobIds[..i])
               == Batch(applied, skipped, applications, nextApplicationId, mails)
      {
        var jobId := jobIds[i];
        assert jobIds[..i + 1] == jobIds[..i] + [jobId];
        BulkSnoc(users, jobs, caller, ledger0, next0, jobIds[..i], jobId);
        match Admit(jobs, applications, caller.id, jobId) {
          case Err(reason) =>
            skipped := skipped + [Skip(jobId, Detail(reason))];
          case Ok(job) =>
            Record(caller, job);
            applied := applied + [job.id];
            mails := mails + Notices(users, caller, job);
        }
        i := i + 1;
      }
      assert jobIds[..i] == jobIds;
      reply := BulkReply(applied, skipped);
    }

    /** Adds the caller's application for `job` to the session and hands
        the two notifications to the mailer. */
    method Record(caller: User, job: Job)
      modifies this
      ensures users == old(users) && jobs == old(jobs)
      ensures nextUserId == old(nextUserId) && nextJobId == old(nextJobId)
      ensures applications == old(applications) + [Application(old(nextApplicationId), caller.id, job.id)]
      ensures nextApplicationId == old(nextApplicationId) + 1
      ensures outbox == old(outbox) + Notices(users, caller, job)
    {
      applications := applications + [Application(nextApplicationId, caller.id, job.id)];
      nextApplicationId := nextApplicationId + 1;
      outbox := outbox + Notices(users, caller, job);
    }

    /** The caller's own applications; candidates only. */
    function GetApplications(caller: User): (r: Result<seq<Application>>)
      reads this
      ensures r.Err? <==> caller.role != Candidate
      ensures r.Err? ==> r.error == Forbidden(OnlyCandidatesView)
      ensures r.Ok? ==> forall a :: a in r.value <==> a in applications && a.candidateId == caller.id
      ensures r.Ok? ==> multiset(r.value) <= multiset(applications) && Subsequence(r.value, applications)
    {
      if caller.role != Candidate then Err(Forbidden(OnlyCandidatesView))
      else Ok(ByCandidate(applications, caller.id))
    }

    /** The applications to the caller's own jobs; recruiters only. */
    function ViewApplicants(caller: User): (r: Result<seq<Application>>)
      reads this
      ensures r.Err? <==> caller.role != Recruiter
      ensures r.Err? ==> r.error == Forbidden(OnlyRecruitersView)
      ensures r.Ok? ==> forall a :: a in r.value <==>
                a in applications && exists j :: j in jobs && j.id == a.jobId && j.recruiterId == caller.id
      ensures r.Ok? ==> multiset(r.value) <= multiset(applications) && Subsequence(r.value, applications)
    {
      if caller.role != Recruiter then Err(Forbidden(OnlyRecruitersView))
      else Ok(ForJobs(applications, JobIdsOf(jobs, caller.id)))
    }
  }

  /** The same application made twice in a row: the second attempt is
      always refused, as already applied when the first succeeded, and at
      most one application is added. */
  method ApplyTwice(board: JobBoard, caller: User, jobId: int) returns (first: Result<()>, second: Result<()>)
    requires board.Valid() && caller in board.users
    modifies board
    ensures board.Valid()
    ensures second.Err?
    ensures first.Ok? ==> second == Err(AlreadyApplied)
    ensures first.Err? ==> second == first
    ensures |board.applications| <= |old(board.applications)| + 1
  {
    first := board.ApplyJob(caller, jobId);
    ghost var isCandidate := caller.role == Candidate;
    ghost var jobKnown := JobExists(board.jobs, jobId);
    ghost var had := HasApplication(board.applications, caller.id, jobId);
    second := board.ApplyJob(caller, jobId);
    if !isCandidate {
      assert second == Err(Forbidden(OnlyCandidatesApply));
    } else if !jobKnown {
      assert second == Err(JobNotFound);
    } else {
      assert had;
      assert second == Err(AlreadyApplied);
    }
  }

  /** Adding a user keeps the other two tables well formed. */
  lemma GrowUsersKeepsTables(users: seq<User>, user: User, jobs: seq<Job>, apps: seq<Application>, nextJob: int, nextApp: int)
    requires JobsWellFormed(jobs, users, nextJob)
    requires LedgerWellFormed(apps, users, jobs, nextApp)
    ensures JobsWellFormed(jobs, users + [user], nextJob)
    ensures LedgerWellFormed(apps, users + [user], jobs, nextApp)
  {
  }

  /** Adding a job keeps the ledger well formed. */
  lemma GrowJobsKeepsLedger(apps: seq<Application>, users: seq<User>, jobs: seq<Job>, job: Job, nextApp: int)
    requires LedgerWellFormed(apps, users, jobs, nextApp)
    ensures LedgerWellFormed(apps, users, jobs + [job], nextApp)
  {
  }

  /** Since emails are unique, a login succeeds exactly when some user has
      the email and a password the verifier accepts. */
  lemma LoginExact(board: JobBoard, email: string, password: string, verify: (string, string) -> bool)
    requires board.Valid()
    ensures board.Login(email, password, verify).Ok?
        <==> exists u :: u in board.users && u.email == email && verify(password, u.password)
  {
  }
}
