/** The application workflow as values: the per-job check shared by the
    single and the bulk endpoint, the notifications sent per accepted
    application, and a reference definition of the bulk pass that the
    method in module Board is proved against. */
module Workflow {
  import opened Records
  import opened Tables

  /** The checks made for one job id once the caller is known to be a
      candidate: the job must exist, then the pair must be new. */
  function Admit(jobs: seq<Job>, apps: seq<Application>, candidate: int, jobId: int): (r: Result<Job>)
    ensures r.Ok? ==> r.value in jobs && r.value.id == jobId && !HasApplication(apps, candidate, jobId)
    ensures r == Err(JobNotFound) <==> !JobExists(jobs, jobId)
    ensures r == Err(AlreadyApplied) <==> JobExists(jobs, jobId) && HasApplication(apps, candidate, jobId)
    ensures r.Err? ==> r.error == JobNotFound || r.error == AlreadyApplied
  {
    match FindJob(jobs, jobId)
    case None => Err(JobNotFound)
    case Some(job) => if HasApplication(apps, candidate, jobId) then Err(AlreadyApplied) else Ok(job)
  }

  /** A second application for a pair just admitted and recorded is refused. */
  lemma AdmitTwiceRefused(jobs: seq<Job>, apps: seq<Application>, candidate: int, jobId: int, id: int)
    requires Admit(jobs, apps, candidate, jobId).Ok?
    ensures Admit(jobs, apps + [Application(id, candidate, jobId)], candidate, jobId) == Err(AlreadyApplied)
  {
  }

  /** The mails sent after an accepted application: a confirmation to the
      candidate, then an alert to the job's owner when that user exists. */
  function Notices(users: seq<User>, candidate: User, job: Job): (r: seq<Mail>)
    ensures 1 <= |r| <= 2
    ensures r[0].to == candidate.email && r[0].subject == "Job Application Submitted"
    ensures |r| == 2 <==> exists u :: u in users && u.id == job.recruiterId
    ensures |r| == 2 ==> (r[1].subject == "New Application" &&
                          exists u :: u in users && u.id == job.recruiterId && r[1].to == u.email)
  {
    [Mail(candidate.email, "Job Application Submitted", "You applied for " + job.title)]
    + match FindUser(users, job.recruiterId)
      case None => []
      case Some(recruiter) => [Mail(recruiter.email, "New Application", candidate.email + " applied for " + job.title)]
  }

  /** What a bulk pass produces: the two reply lists, the ledger and id
      counter afterwards, and the mails sent, in order. */
  datatype Batch = Batch(applied: seq<int>, skipped: seq<Skip>, ledger: seq<Application>, nextId: int, mails: seq<Mail>)

  /** The bulk pass over `ids`, one id at a time: a refused id is skipped
      with the refusal's detail as reason, an admitted id is added to the
      ledger at once, so later ids see it. */
  function Bulk(users: seq<User>, jobs: seq<Job>, caller: User, ledger: seq<Application>, nextId: int, ids: seq<int>): Batch
    decreases |ids|
  {
    if ids == [] then Batch([], [], ledger, nextId, [])
    else
      match Admit(jobs, ledger, caller.id, ids[0])
      case Err(e) =>
        var rest := Bulk(users, jobs, caller, ledger, nextId, ids[1..]);
        rest.(skipped := [Skip(ids[0], Detail(e))] + rest.skipped)
      case Ok(job) =>
        var rest := Bulk(users, jobs, caller, ledger + [Application(nextId, caller.id, ids[0])], nextId + 1, ids[1..]);
        rest.(applied := [job.id] + rest.applied, mails := Notices(users, caller, job) + rest.mails)
  }

  /** A batch `b` still to be produced, after `applied`, `skipped` and
      `mails` were produced already. */
  function Resume(applied: seq<int>, skipped: seq<Skip>, mails: seq<Mail>, b: Batch): Batch
  {
    Batch(applied + b.applied, skipped + b.skipped, b.ledger, b.nextId, mails + b.mails)
  }

  function SkipIds(skipped: seq<Skip>): seq<int>
  {
    if skipped == [] then [] else [skipped[0].jobId] + SkipIds(skipped[1..])
  }

  /** `ids` is an order-preserving merge of `a` and `s`: every element of
      `ids` is taken, in turn, from the front of exactly one of the two. */
  predicate Interleaves(ids: seq<int>, a: seq<int>, s: seq<int>)
    decreases |ids|
  {
    if ids == [] then a == [] && s == []
    else
      || (a != [] && a[0] == ids[0] && Interleaves(ids[1..], a[1..], s))
      || (s != [] && s[0] == ids[0] && Interleaves(ids[1..], a, s[1..]))
  }

  /** The applications a pass adds: consecutive ids from `nextId`, for
      `candidate`, one per applied job id, in order. */
  function NewApps(candidate: int, nextId: int, applied: seq<int>): seq<Application>
  {
    seq(|applied|, k requires 0 <= k < |applied| => Application(nextId + k, candidate, applied[k]))
  }

  /** An interleaving splits its input exactly: lengths add up and no
      element is lost or invented. */
  lemma {:induction false} InterleavesSplit(ids: seq<int>, a: seq<int>, s: seq<int>)
    requires Interleaves(ids, a, s)
    ensures |a| + |s| == |ids|
    ensures multiset(a) + multiset(s) == multiset(ids)
  {
    if ids != [] {
      assert ids == [ids[0]] + ids[1..];
      if a != [] && a[0] == ids[0] && Interleaves(ids[1..], a[1..], s) {
        InterleavesSplit(ids[1..], a[1..], s);
        assert a == [a[0]] + a[1..];
      } else {
        InterleavesSplit(ids[1..], a, s[1..]);
        assert s == [s[0]] + s[1..];
      }
    }
  }

  /** Every input id is either applied or skipped, and both lists keep
      the input order. */
  lemma {:induction false} BulkPartition(users: seq<User>, jobs: seq<Job>, caller: User, ledger: seq<Application>, nextId: int, ids: seq<int>)
    ensures Interleaves(ids, Bulk(users, jobs, caller, ledger, nextId, ids).applied,
                        SkipIds(Bulk(users, jobs, caller, ledger, nextId, ids).skipped))
    ensures |Bulk(users, jobs, caller, ledger, nextId, ids).applied|
          + |Bulk(users, jobs, caller, ledger, nextId, ids).skipped| == |ids|
    decreases |ids|
  {
    var b := Bulk(users, jobs, caller, ledger, nextId, ids);
    if ids != [] {
      match Admit(jobs, ledger, caller.id, ids[0])
      case Err(e) =>
        var rest := Bulk(users, jobs, caller, ledger, nextId, ids[1..]);
        BulkPartition(users, jobs, caller, ledger, nextId, ids[1..]);
        assert b.skipped == [Skip(ids[0], Detail(e))] + rest.skipped;
        assert b.skipped[1..] == rest.skipped;
        assert SkipIds(b.skipped) == [ids[0]] + SkipIds(rest.skipped);
        assert SkipIds(b.skipped)[1..] == SkipIds(rest.skipped);
      case Ok(job) =>
        var rest := Bulk(users, jobs, caller, ledger + [Application(nextId, caller.id, ids[0])], nextId + 1, ids[1..]);
        BulkPartition(users, jobs, caller, ledger + [Application(nextId, caller.id, ids[0])], nextId + 1, ids[1..]);
        assert b.applied == [ids[0]] + rest.applied;
        assert b.applied[1..] == rest.applied;
    }
    SkipIdsLength(b.skipped);
    InterleavesSplit(ids, b.applied, SkipIds(b.skipped));
  }

  lemma {:induction false} SkipIdsLength(skipped: seq<Skip>)
    ensures |SkipIds(skipped)| == |skipped|
  {
    if skipped != [] {
      SkipIdsLength(skipped[1..]);
    }
  }

  /** A pass only appends: the ledger afterwards is the old ledger followed
      by one fresh application per applied id, and the counter moves by
      the number of applied ids. */
  lemma {:induction false} BulkLedger(users: seq<User>, jobs: seq<Job>, caller: User, ledger: seq<Application>, nextId: int, ids: seq<int>)
    ensures Bulk(users, jobs, caller, ledger, nextId, ids).ledger
         == ledger + NewApps(caller.id, nextId, Bulk(users, jobs, caller, ledger, nextId, ids).applied)
    ensures Bulk(users, jobs, caller, ledger, nextId, ids).nextId
         == nextId + |Bulk(users, jobs, caller, ledger, nextId, ids).applied|
    decreases |ids|
  {
    var b := Bulk(users, jobs, caller, ledger, nextId, ids);
    if ids == [] {
      assert NewApps(caller.id, nextId, []) == [];
    } else {
      match Admit(jobs, ledger, caller.id, ids[0])
      case Err(e) =>
        BulkLedger(users, jobs, caller, ledger, nextId, ids[1..]);
      case Ok(job) =>
        var a := Application(nextId, caller.id, ids[0]);
        var rest := Bulk(users, jobs, caller, ledger + [a], nextId + 1, ids[1..]);
        BulkLedger(users, jobs, caller, ledger + [a], nextId + 1, ids[1..]);
        assert b.applied == [ids[0]] + rest.applied;
        assert NewApps(caller.id, nextId, b.applied) == [a] + NewApps(caller.id, nextId + 1, rest.applied);
    }
  }

  /** Every applied id names a job of the catalog that the caller had not
      applied to before the pass; every skipped id carries the reason of
      its refusal, and an id skipped as already applied is in the ledger
      afterwards. */
  lemma {:induction false} BulkReasons(users: seq<User>, jobs: seq<Job>, caller: User, ledger: seq<Application>, nextId: int, ids: seq<int>)
    ensures forall id :: id in Bulk(users, jobs, caller, ledger, nextId, ids).applied ==>
              JobExists(jobs, id) && !HasApplication(ledger, caller.id, id)
    ensures forall sk :: sk in Bulk(users, jobs, caller, ledger, nextId, ids).skipped ==>
              || (sk.reason == Detail(JobNotFound) && !JobExists(jobs, sk.jobId))
              || (sk.reason == Detail(AlreadyApplied) && JobExists(jobs, sk.jobId)
                  && HasApplication(Bulk(users, jobs, caller, ledger, nextId, ids).ledger, caller.id, sk.jobId))
    decreases |ids|
  {
    var b := Bulk(users, jobs, caller, ledger, nextId, ids);
    if ids != [] {
      BulkLedger(users, jobs, caller, ledger, nextId, ids);
      match Admit(jobs, ledger, caller.id, ids[0])
      case Err(e) =>
        BulkReasons(users, jobs, caller, ledger, nextId, ids[1..]);
        if e == AlreadyApplied {
          var w :| w in ledger && w.candidateId == caller.id && w.jobId == ids[0];
          assert w in b.ledger;
        }
      case Ok(job) =>
        var a := Application(nextId, caller.id, ids[0]);
        BulkReasons(users, jobs, caller, ledger + [a], nextId + 1, ids[1..]);
        forall id | id in b.applied
          ensures JobExists(jobs, id) && !HasApplication(ledger, caller.id, id)
        {
          if id != ids[0] {
            assert !HasApplication(ledger + [a], caller.id, id);
          }
        }
    }
  }

  /** After a pass, the caller holds an application for every input id
      that names a job of the catalog. */
  lemma {:induction false} BulkRecords(users: seq<User>, jobs: seq<Job>, caller: User, ledger: seq<Application>, nextId: int, ids: seq<int>)
    ensures forall id :: id in ids && JobExists(jobs, id) ==>
              HasApplication(Bulk(users, jobs, caller, ledger, nextId, ids).ledger, caller.id, id)
    decreases |ids|
  {
    var b := Bulk(users, jobs, caller, ledger, nextId, ids);
    if ids != [] {
      BulkLedger(users, jobs, caller, ledger, nextId, ids);
      var ledger' := match Admit(jobs, ledger, caller.id, ids[0])
                     case Err(_) => ledger
                     case Ok(_) => ledger + [Application(nextId, caller.id, ids[0])];
      var nextId' := if Admit(jobs, ledger, caller.id, ids[0]).Ok? then nextId + 1 else nextId;
      assert b.ledger == Bulk(users, jobs, caller, ledger', nextId', ids[1..]).ledger;
      BulkRecords(users, jobs, caller, ledger', nextId', ids[1..]);
      BulkLedger(users, jobs, caller, ledger', nextId', ids[1..]);
      if JobExists(jobs, ids[0]) {
        var w :| w in ledger' && w.candidateId == caller.id && w.jobId == ids[0];
        assert w in b.ledger;
      }
    }
  }

  /** No job id is applied to twice in one pass. */
  lemma {:induction false} BulkAppliedDistinct(users: seq<User>, jobs: seq<Job>, caller: User, ledger: seq<Application>, nextId: int, ids: seq<int>)
    ensures forall i, j :: 0 <= i < j < |Bulk(users, jobs, caller, ledger, nextId, ids).applied| ==>
              Bulk(users, jobs, caller, ledger, nextId, ids).applied[i] != Bulk(users, jobs, caller, ledger, nextId, ids).applied[j]
    decreases |ids|
  {
    var b := Bulk(users, jobs, caller, ledger, nextId, ids);
    if ids != [] {
      match Admit(jobs, ledger, caller.id, ids[0])
      case Err(e) =>
        BulkAppliedDistinct(users, jobs, caller, ledger, nextId, ids[1..]);
      case Ok(job) =>
        var a := Application(nextId, caller.id, ids[0]);
        var rest := Bulk(users, jobs, caller, ledger + [a], nextId + 1, ids[1..]);
        BulkAppliedDistinct(users, jobs, caller, ledger + [a], nextId + 1, ids[1..]);
        BulkReasons(users, jobs, caller, ledger + [a], nextId + 1, ids[1..]);
        assert b.applied == [ids[0]] + rest.applied;
        assert a in ledger + [a];
        forall i, j | 0 <= i < j < |b.applied| ensures b.applied[i] != b.applied[j] {
          if i == 0 {
            assert b.applied[j] == rest.applied[j - 1];
            assert b.applied[j] in rest.applied;
          } else {
            assert b.applied[i] == rest.applied[i - 1] && b.applied[j] == rest.applied[j - 1];
          }
        }
    }
  }

  /** A pass keeps the ledger well formed, in particular at most one
      application per (candidate, job) pair. */
  lemma {:induction false} BulkKeepsLedger(users: seq<User>, jobs: seq<Job>, caller: User, ledger: seq<Application>, nextId: int, ids: seq<int>)
    requires LedgerWellFormed(ledger, users, jobs, nextId)
    requires caller in users && caller.role == Candidate
    ensures LedgerWellFormed(Bulk(users, jobs, caller, ledger, nextId, ids).ledger, users, jobs,
                             Bulk(users, jobs, caller, ledger, nextId, ids).nextId)
    decreases |ids|
  {
    if ids != [] {
      match Admit(jobs, ledger, caller.id, ids[0])
      case Err(e) =>
        BulkKeepsLedger(users, jobs, caller, ledger, nextId, ids[1..]);
      case Ok(job) =>
        AppendKeepsLedger(ledger, users, jobs, nextId, caller, ids[0]);
        BulkKeepsLedger(users, jobs, caller, ledger + [Application(nextId, caller.id, ids[0])], nextId + 1, ids[1..]);
    }
  }

  /** A pass over `pre + post` is a pass over `pre` followed by a pass over
      `post` that starts from the ledger `pre` left behind. */
  lemma {:induction false} BulkConcat(users: seq<User>, jobs: seq<Job>, caller: User, ledger: seq<Application>, nextId: int, pre: seq<int>, post: seq<int>)
    ensures var b := Bulk(users, jobs, caller, ledger, nextId, pre);
            Bulk(users, jobs, caller, ledger, nextId, pre + post)
            == Resume(b.applied, b.skipped, b.mails, Bulk(users, jobs, caller, b.ledger, b.nextId, post))
    decreases |pre|
  {
    if pre == [] {
      assert pre + post == post;
    } else {
      assert (pre + post)[0] == pre[0];
      assert (pre + post)[1..] == pre[1..] + post;
      match Admit(jobs, ledger, caller.id, pre[0])
      case Err(e) =>
        var r1 := Bulk(users, jobs, caller, ledger, nextId, pre[1..]);
        BulkConcat(users, jobs, caller, ledger, nextId, pre[1..], post);
        ResumeAfterSkip(r1, Bulk(users, jobs, caller, r1.ledger, r1.nextId, post), Skip(pre[0], Detail(e)));
      case Ok(job) =>
        var l := ledger + [Application(nextId, caller.id, pre[0])];
        var r1 := Bulk(users, jobs, caller, l, nextId + 1, pre[1..]);
        BulkConcat(users, jobs, caller, l, nextId + 1, pre[1..], post);
        ResumeAfterApply(r1, Bulk(users, jobs, caller, r1.ledger, r1.nextId, post), job.id, Notices(users, caller, job));
    }
  }

  /** Prepending a skip commutes with resuming a batch. */
  lemma ResumeAfterSkip(r1: Batch, t: Batch, sk: Skip)
    ensures var r := Resume(r1.applied, r1.skipped, r1.mails, t);
            r.(skipped := [sk] + r.skipped)
            == Resume(r1.applied, [sk] + r1.skipped, r1.mails, t)
  {
  }

  /** Prepending an applied id and its mails commutes with resuming a batch. */
  lemma ResumeAfterApply(r1: Batch, t: Batch, id: int, ms: seq<Mail>)
    ensures var r := Resume(r1.applied, r1.skipped, r1.mails, t);
            r.(applied := [id] + r.applied, mails := ms + r.mails)
            == Resume([id] + r1.applied, r1.skipped, ms + r1.mails, t)
  {
  }

  /** One turn of the bulk loop on the batch produced so far: the id is
      checked against the ledger as it stands, then skipped or applied. */
  function Step(users: seq<User>, jobs: seq<Job>, caller: User, b: Batch, id: int): Batch
  {
    match Admit(jobs, b.ledger, caller.id, id)
    case Err(e) => b.(skipped := b.skipped + [Skip(id, Detail(e))])
    case Ok(job) =>
      b.(applied := b.applied + [job.id],
         ledger := b.ledger + [Application(b.nextId, caller.id, id)],
         nextId := b.nextId + 1,
         mails := b.mails + Notices(users, caller, job))
  }

  /** The pass over one more id is one more turn of the loop. */
  lemma BulkSnoc(users: seq<User>, jobs: seq<Job>, caller: User, ledger: seq<Application>, nextId: int, pre: seq<int>, id: int)
    ensures Bulk(users, jobs, caller, ledger, nextId, pre + [id])
         == Step(users, jobs, caller, Bulk(users, jobs, caller, ledger, nextId, pre), id)
  {
    var b := Bulk(users, jobs, caller, ledger, nextId, pre);
    BulkConcat(users, jobs, caller, ledger, nextId, pre, [id]);
    var last := Bulk(users, jobs, caller, b.ledger, b.nextId, [id]);
    assert [id][1..] == [];
    match Admit(jobs, b.ledger, caller.id, id)
    case Err(e) =>
      assert last == Batch([], [Skip(id, Detail(e))], b.ledger, b.nextId, []);
    case Ok(job) =>
      assert last == Batch([job.id], [], b.ledger + [Application(b.nextId, caller.id, id)], b.nextId + 1,
                           Notices(users, caller, job) + []);
      assert Notices(users, caller, job) + [] == Notices(users, caller, job);
  }

  /** A job id that occurs again after it was already seen in the same
      request is skipped on its later occurrence: as already applied when
      the job exists, as not found otherwise. */
  lemma RepeatedIdSkipped(users: seq<User>, jobs: seq<Job>, caller: User, ledger: seq<Application>, nextId: int, pre: seq<int>, id: int, post: seq<int>)
    requires id in pre
    ensures var b := Bulk(users, jobs, caller, ledger, nextId, pre);
            var all := Bulk(users, jobs, caller, ledger, nextId, pre + [id] + post);
            && |b.skipped| < |all.skipped|
            && all.skipped[|b.skipped|] == Skip(id, if JobExists(jobs, id) then Detail(AlreadyApplied) else Detail(JobNotFound))
            && |b.applied| <= |all.applied|
            && all.applied[..|b.applied|] == b.applied
            && id !in all.applied[|b.applied|..]
  {
    var b := Bulk(users, jobs, caller, ledger, nextId, pre);
    var tail := Bulk(users, jobs, caller, b.ledger, b.nextId, [id] + post);
    BulkConcat(users, jobs, caller, ledger, nextId, pre, [id] + post);
    assert pre + [id] + post == pre + ([id] + post);
    BulkRecords(users, jobs, caller, ledger, nextId, pre);
    assert ([id] + post)[0] == id && ([id] + post)[1..] == post;
    var err := Admit(jobs, b.ledger, caller.id, id);
    assert err.Err?;
    var rest := Bulk(users, jobs, caller, b.ledger, b.nextId, post);
    assert tail.skipped == [Skip(id, Detail(err.error))] + rest.skipped;
    assert tail.applied == rest.applied;
    var all := Bulk(users, jobs, caller, ledger, nextId, pre + [id] + post);
    assert all.applied == b.applied + rest.applied;
    assert all.applied[|b.applied|..] == rest.applied;
    BulkReasons(users, jobs, caller, b.ledger, b.nextId, post);
  }

  /** A bulk request with ids [1, 1, 2, 3], where jobs 1 and 3 exist and 2
      does not, starting from an empty ledger. */
  lemma BulkExample(users: seq<User>, caller: User)
    ensures var jobs := [Job(1, "a", "", 7), Job(3, "c", "", 7)];
            var b := Bulk(users, jobs, caller, [], 10, [1, 1, 2, 3]);
            && b.applied == [1, 3]
            && b.skipped == [Skip(1, "Already applied"), Skip(2, "Job not found")]
            && b.ledger == [Application(10, caller.id, 1), Application(11, caller.id, 3)]
  {
  }
}
