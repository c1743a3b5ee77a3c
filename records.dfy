/** Row shapes of the three tables, request/response shapes, and the
    error outcomes the endpoints raise. */
module Records {

  /** A row of the users table. `password` holds whatever the credential
      hasher produced at signup; `role` is free text, and only the two
      values below are ever compared against. */
  datatype User = User(id: int, email: string, password: string, role: string)

  /** A row of the jobs table; `recruiterId` refers to the posting user. */
  datatype Job = Job(id: int, title: string, description: string, recruiterId: int)

  /** A row of the applications table: one candidate applied to one job. */
  datatype Application = Application(id: int, candidateId: int, jobId: int)

  const Candidate: string := "candidate"
  const Recruiter: string := "recruiter"

  /** Details of the four role refusals, one per role-gated endpoint. */
  const OnlyRecruitersPost: string := "Only recruiters can post jobs"
  const OnlyCandidatesApply: string := "Only candidates can apply"
  const OnlyCandidatesView: string := "Only candidates can view applications"
  const OnlyRecruitersView: string := "Only recruiters can view applicants"

  /** The exceptions an endpoint raises before it changes anything. */
  datatype Error =
    | EmailAlreadyRegistered
    | InvalidCredentials
    | Forbidden(detail: string)
    | JobNotFound
    | AlreadyApplied

  /** The human-readable detail carried by each error; the bulk endpoint
      reuses the last two as its skip reasons. */
  function Detail(e: Error): string
  {
    match e
    case EmailAlreadyRegistered => "Email already registered"
    case InvalidCredentials => "Invalid credentials"
    case Forbidden(d) => d
    case JobNotFound => "Job not found"
    case AlreadyApplied => "Already applied"
  }

  datatype Option<T> = None | Some(value: T)

  datatype Result<T> = Ok(value: T) | Err(error: Error)

  /** One entry of the bulk endpoint's `skipped` list. */
  datatype Skip = Skip(jobId: int, reason: string)

  /** The bulk endpoint's reply: the ids that were applied to and the ids
      that were skipped, each list in input order. */
  datatype BulkReply = BulkReply(applied: seq<int>, skipped: seq<Skip>)

  /** One notification handed to the mailer: address, subject and body. */
  datatype Mail = Mail(to: string, subject: string, body: string)
}
