# Job board: application workflow in Dafny

This project models the request handlers of a small job-board backend. The backend keeps three tables: users, jobs and applications. Recruiters post jobs. Candidates apply to one job, or to many in one request. Each side can list the applications that concern it.

The database session is one object, `Board.JobBoard`. It holds the three tables as sequences in insertion order, the id counter of each table, and a ghost log (`outbox`) of the mails handed to the mailer. Each endpoint that writes is a method. Each query is a function of the tables. The object invariant `Valid()` says:

- primary keys are distinct and below their counters;
- emails are unique;
- every job is owned by a recruiter;
- every application is by a candidate, for a job in the catalog;
- the ledger holds at most one application per (candidate, job) pair.

Every endpoint method requires and keeps this invariant. The helpers `Record` and `ApplyEach` do not mention it; their callers `ApplyJob` and `ApplyMultipleJobs` re-establish it.

Modules:

- `Records`: the row shapes of `models.py` (which `schemas.py`'s `JobResponse` and `ApplicationResponse` repeat), the bulk endpoint's reply, and the error outcomes with their detail strings. The request classes of `schemas.py` become method parameters.
- `Tables`: the lookups and filters the handlers run against the tables, and the well-formedness of each table.
- `Workflow`: the per-job check that single and bulk apply share (`Admit`, which `ApplyJob` and the bulk loop both call after the role check) and the notifications sent per accepted application (`Notices`). It also holds `Bulk`, a reference definition of the bulk pass as a recursive function, and the lemmas about it.
- `Board`: the class and its endpoints. `ApplyEach` runs the bulk endpoint's loop on the session's fields and is proved equal to `Bulk`. The lemmas in `Workflow` then carry the properties of the bulk endpoint.

The authenticated caller is a `User` parameter. Every writing endpoint that takes a caller requires `caller in users`, because the authentication dependency only ever returns a row of the users table.

On these points the model follows the code:

- Signup accepts any role string. Only `"candidate"` and `"recruiter"` are ever compared against.
- The two "conflict" outcomes, a taken email and a duplicate application, are the same status (400) in the code. They differ only by their detail.
- After a successful single apply, the recruiter is only notified when a user with the job's `recruiter_id` is found.

## Model

| member | source | states |
|---|---|---|
| `Board.JobBoard.constructor` | main.py:11 | a fresh session has empty tables, an empty mail log and every id counter at 1, and satisfies the invariant |
| `Board.JobBoard.Signup` | main.py:21-30 | a taken email gives `EmailAlreadyRegistered` and leaves every table unchanged; otherwise exactly one user with the next id, the email, the hash and the role is appended; the invariant (unique emails included) is kept |
| `Board.JobBoard.Login` | main.py:32-38 | success only for a user with that email whose stored hash the verifier accepts, and the subject is that user's id; every failure is `InvalidCredentials` |
| `Board.LoginExact` | main.py:34-37 | because emails are unique, login succeeds exactly when some user has the email and an accepted password |
| `Board.JobBoard.PostJob` | main.py:40-47 | a non-recruiter gets `Forbidden` and no job is created; a recruiter gets the job with the next id, the given title and description and the caller as owner, appended to the catalog; nothing else changes |
| `Board.JobBoard.ListJobs` | main.py:49-51 | the whole catalog in insertion order, with no role check |
| `Board.JobBoard.ApplyJob` | main.py:53-70 | role first, then job existence, then duplicate, first failure wins (a non-candidate gets `Forbidden` even for an unknown job); every error leaves all tables and the mail log unchanged; when all checks pass, exactly one application (next id, caller, job) is appended, the confirmation and, when the owner is a user, the alert are logged, and the pair is then present; users and jobs never change |
| `Board.JobBoard.Record` | main.py:62-69 | adds one application for (caller, job) with the next id, then logs the candidate's confirmation and, when the job's owner is a user, the recruiter's alert |
| `Board.ApplyTwice` | main.py:60-61 | the same application made twice: the second attempt is always refused, as `AlreadyApplied` when the first succeeded, and the ledger grows by at most one |
| `Board.JobBoard.ApplyMultipleJobs` | main.py:72-105 | a non-candidate gets `Forbidden` before any id is examined, and nothing changes; otherwise the reply, the new ledger, the id counter and the mails are exactly those of `Bulk` over the old ledger; the invariant, and so pair uniqueness, is kept |
| `Board.JobBoard.ApplyEach` | main.py:80-98 | the in-place loop over the ids produces the same applied and skipped lists, ledger, counter and mails as the reference pass `Bulk` |
| `Board.JobBoard.GetApplications` | main.py:107-111 | refused with `Forbidden` exactly for non-candidates; otherwise returns exactly the applications whose candidate is the caller, each once and in ledger order (a subsequence of the ledger, with multiset bounded by it) |
| `Board.JobBoard.ViewApplicants` | main.py:113-118 | refused with `Forbidden` exactly for non-recruiters; otherwise returns exactly the applications whose job is in the catalog with the caller as recruiter, each once and in ledger order (a subsequence of the ledger, with multiset bounded by it) |
| `Tables.FindUserByEmail` | main.py:23 | finds a user exactly when one has the email, and the user found has it |
| `Tables.FindUser` | main.py:67 | finds a user exactly when one has the id, and the user found has it |
| `Tables.FindJob` | main.py:57 | finds a job exactly when one has the id, and the job found is in the catalog with that id |
| `Tables.ByCandidate` | main.py:111 | an application is in the result if and only if it is in the ledger and was filed by the candidate; the result is a subsequence of the ledger, so no row is repeated and ledger order is kept |
| `Tables.JobIdsOf` | main.py:117 | an id is in the result if and only if a job with that id is owned by the recruiter |
| `Tables.ForJobs` | main.py:118 | an application is in the result if and only if it is in the ledger and its job id is one of the given ids; the result is a subsequence of the ledger, so no row is repeated and ledger order is kept |
| `Tables.AppendKeepsLedger` | main.py:60-63 | appending an application for a pair the ledger does not hold, by a candidate, for an existing job, keeps the ledger well formed, including pair uniqueness |
| `Workflow.Admit` | main.py:57-61 | `JobNotFound` exactly when no job has the id; `AlreadyApplied` exactly when the job exists and the pair is already applied; otherwise the job itself, which has the requested id |
| `Workflow.AdmitTwiceRefused` | main.py:60-61 | once an admitted pair is recorded, checking it again gives `AlreadyApplied` |
| `Workflow.Notices` | main.py:66-69 | the candidate's confirmation comes first; a second mail, the alert to the job's owner, is present exactly when a user with the job's recruiter id exists |
| `Records.Detail` | main.py:25-86 | gives the detail string the source attaches to each error (lines 25, 36, 59 and 61), which the bulk endpoint also uses as skip reason (lines 83 and 86); it has no contract, and `BulkReasons` and `BulkExample` state the reasons it yields |
| `Workflow.Bulk` | main.py:80-98 | the reference definition of the whole bulk pass, each id checked against the ledger as it stands, which assumes the session autoflushes (see "## Left out"); it has no contract of its own, and its properties are the `Bulk*` lemmas and `RepeatedIdSkipped` below |
| `Workflow.Step` | main.py:81-97 | one turn of the bulk loop: a refused id is appended to skipped with its reason, an admitted one to applied with one new application and its mails; it has no contract, and `BulkSnoc` ties it to `Bulk` |
| `Workflow.InterleavesSplit` | main.py:101-104 | an order-preserving split of the ids into two lists loses and invents nothing: the lengths add up and the multisets combine to the input |
| `Workflow.BulkPartition` | main.py:80-91 | every input id lands in exactly one of applied or skipped, each list keeps input order, and the two lengths sum to the number of ids |
| `Workflow.BulkLedger` | main.py:89-90 | the pass only appends: the new ledger is the old one followed by one application per applied id, with consecutive fresh ids, so the number of new applications equals the length of applied |
| `Workflow.BulkReasons` | main.py:81-91 | every applied id names an existing job the caller had not applied to; every skip with reason "Job not found" names an absent job; every skip with reason "Already applied" names an existing job the caller holds an application for |
| `Workflow.BulkRecords` | main.py:85-90 | after the pass the caller holds an application for every input id that names an existing job |
| `Workflow.BulkAppliedDistinct` | main.py:85-91 | no job id appears twice in applied |
| `Workflow.BulkKeepsLedger` | main.py:85-90 | a pass keeps the ledger well formed, so at most one application per (candidate, job) pair |
| `Workflow.BulkConcat` | main.py:80-98 | a pass over `pre + post` is a pass over `pre` followed by a pass over `post` that starts from the ledger `pre` left; earlier applications are visible to later checks |
| `Workflow.BulkSnoc` | main.py:80-98 | the pass over one more id is one more turn of the loop body on the state so far |
| `Workflow.RepeatedIdSkipped` | main.py:85-87 | a job id seen earlier in the same request is skipped on its later occurrence, as "Already applied" when the job exists, and that occurrence adds nothing to applied |
| `Workflow.BulkExample` | main.py:80-105 | with ids [1, 1, 2, 3], jobs 1 and 3 in the catalog and an empty ledger: applied is [1, 3], the second 1 is skipped as "Already applied", 2 is skipped as "Job not found", and exactly two applications are added |

## Left out

- Token issuance and checking (`auth.py`) are left out. This covers JWT encoding, signature and expiry checks, the wall clock and the session opened per token check. The caller is given as a `User` of the users table. `Login` returns the id that would become the token's subject claim.
- Password hashing and verification (bcrypt) are left out. `Signup` receives the hash as a parameter. `Login` receives the verifier as a function parameter. The model cannot state that the stored credential differs from the plaintext, because the hash is not modelled.
- Mail delivery (`send_email`, whose module is not part of this model) is left out. The mails handed to it are recorded in the ghost `outbox`. A failing send is not modelled.
- Logout is left out: it only returns a message and changes nothing.
- HTTP status codes are left out. Errors are an enum whose `Detail` gives the source's detail strings.
- The constant `"status": "completed"` field of the bulk reply is left out.
- Request validation by the schema layer (email syntax, field types) is left out. Email and role are arbitrary strings.
- Routing, the per-request session lifecycle and server start-up are left out.
- Commit timing is left out, and the bulk model assumes the session autoflushes. Autoflush is SQLAlchemy's default; the session factory in `database.py` is not part of this model. With autoflush off, the query at main.py:85 would not see applications added earlier in the same request, and a repeated id would be applied twice. `RepeatedIdSkipped`, the pair uniqueness of `BulkKeepsLedger` for repeated ids, and `BulkExample` rest on this assumption. The single commit at the end is not modelled separately, because no storage failure is modelled.
- Concurrent requests and the check-then-write race on duplicate applications are left out. Only sequential behaviour is modelled.
- Database id assignment is modelled as one counter per table, starting at 1.
- The bulk endpoint collects job rows and then maps them to their ids. `ApplyEach` collects the id of the job found directly, which is the same value.
- Board.JobBoard.ApplyMultipleJobs: its postcondition ties the result to `Bulk` and does not itself restate the partition, order, reason and uniqueness facts. Those are proved about `Bulk` as separate lemmas.
