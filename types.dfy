/** The records the portal stores and exchanges: users, companies, jobs and applications. */
module Types {
  import opened Wrappers

  datatype Role = HR | Candidate

  /** Lifecycle of an application; no transition between the four is guarded. */
  datatype Status = Pending | Shortlisted | Rejected | Hired

  /** A portal user. The optional fields are `undefined` for the HR demo identity. */
  datatype User = User(
    id: string,
    name: string,
    email: string,
    role: Role,
    avatar: Option<string>,
    location: Option<string>,
    designation: Option<string>,
    experience: Option<string>,
    skills: Option<seq<string>>,
    resumeText: Option<string>)

  datatype Company = Company(name: string, logo: string, industry: string, location: string)

  /** A posting. Vacancy counts are whole numbers here. */
  datatype Job = Job(
    id: string,
    title: string,
    domain: string,
    description: string,
    company: Company,
    requiredSkills: seq<string>,
    experience: string,
    salaryRange: string,
    totalVacancies: int,
    filledVacancies: int,
    postedAt: string,
    joiningDetails: string)

  /** One candidate's application to one job, with the score fixed when it was made. */
  datatype Application = Application(
    id: string,
    jobId: string,
    candidateId: string,
    candidateName: string,
    status: Status,
    appliedAt: string,
    resumeUrl: string,
    atsScore: Option<int>,
    aiFeedback: Option<string>)
}
