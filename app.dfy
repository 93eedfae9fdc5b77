/**
 * The portal's workflow controller: the session state the page keeps (who is
 * logged in, the listed jobs and applications, the filters, the busy flag and
 * the AI-drafted texts) and the handlers that update it by calling the backend
 * and then refreshing.
 */
module App {
  import opened Wrappers
  import opened Seqs
  import opened Text
  import opened Types
  import opened Store
  import opened ApiService
  import opened Gemini

  /** The HR job-posting form. */
  datatype JobForm = JobForm(
    title: string, domain: string, exp: string, sal: string, loc: string, desc: string, vac: int)

  const EMPTY_FORM := JobForm("", "Engineering", "", "", "", "", 1)

  /** The fixed demo identity each role logs in as. */
  function DemoEmail(role: Role): (email: string)
    ensures role.HR? <==> email == "admin@nexus.ai"
    ensures role.Candidate? <==> email == "arjun.dev@gmail.com"
  {
    if role == HR then "admin@nexus.ai" else "arjun.dev@gmail.com"
  }

  /** JavaScript's truthiness of `resumeText`: present and non-empty. */
  predicate HasResume(u: User)
  {
    u.resumeText.Some? && u.resumeText.value != ""
  }

  const SKILLS_PREFIX := "Profile skills: "

  /**
   * The text the scorer is given for a user: the resume when there is one, else
   * the skills joined by ", " after a fixed prefix. A user without skills gives
   * "undefined" there, as string concatenation with `undefined` does.
   */
  function ResumeForScoring(u: User): (s: string)
    ensures HasResume(u) ==> s == u.resumeText.value
    ensures !HasResume(u) ==> |s| >= |SKILLS_PREFIX| && s[..|SKILLS_PREFIX|] == SKILLS_PREFIX
    ensures !HasResume(u) && u.skills.Some? ==>
      forall k :: 0 <= k < |u.skills.value| ==> Includes(s, u.skills.value[k])
  {
    if HasResume(u) then u.resumeText.value
    else if u.skills.Some? then
      PrefixedJoinIncludesParts(SKILLS_PREFIX, u.skills.value, ", ");
      SKILLS_PREFIX + Join(u.skills.value, ", ")
    else SKILLS_PREFIX + "undefined"
  }

  /** The application `handleApply` builds from the user, the job and the analysis. */
  function NewApplication(appId: string, appliedAt: string, u: User, job: Job, a: Analysis): (app: Application)
    ensures app.id == appId && app.appliedAt == appliedAt && app.status == Pending
    ensures app.jobId == job.id && app.candidateId == u.id && app.candidateName == u.name
    ensures app.atsScore == Some(a.score) && app.aiFeedback == Some(a.feedback)
  {
    Application(appId, job.id, u.id, u.name, Pending, appliedAt, "profile_cv.pdf", Some(a.score), Some(a.feedback))
  }

  /** The posting `handleCreateJob` builds from the form. */
  function NewJob(form: JobForm, jobId: string): (j: Job)
    ensures j.id == jobId && j.filledVacancies == 0 && j.totalVacancies == form.vac
    ensures j.title == form.title && j.domain == form.domain && j.description == form.desc
    ensures j.company.name == "NexusAI Global" && j.company.location == form.loc
  {
    Job(jobId, form.title, form.domain, form.desc, Company("NexusAI Global", "\U{1F537}", "AI", form.loc),
        ["Role Specific Skills"], form.exp, form.sal, form.vac, 0, "Just now", "Negotiable")
  }

  /** A job counts as applied to when some listed application refers to it. */
  function IsApplied(apps: seq<Application>, jobId: string): (r: bool)
    ensures r <==> exists i :: 0 <= i < |apps| && apps[i].jobId == jobId
  {
    FirstIndex(apps, (a: Application) => a.jobId == jobId).Some?
  }

  /** The job title an email names: that of the first listed job with the id, or "Position". */
  function JobTitleFor(jobs: seq<Job>, jobId: string): (t: string)
    ensures t != ""
    ensures (forall i :: 0 <= i < |jobs| ==> jobs[i].id != jobId) ==> t == "Position"
    ensures forall i :: 0 <= i < |jobs| && jobs[i].id == jobId && (forall k :: 0 <= k < i ==> jobs[k].id != jobId) ==>
      t == if jobs[i].title != "" then jobs[i].title else "Position"
  {
    var found := FirstIndex(jobs, (j: Job) => j.id == jobId);
    if found.Some? && jobs[found.value].title != "" then jobs[found.value].title else "Position"
  }

  /** Every application names the id of some job in `stored`. */
  ghost predicate JobsKnown(apps: seq<Application>, stored: seq<Job>)
  {
    forall a :: a in apps ==> exists j :: j in stored && j.id == a.jobId
  }

  /** The page's state and its handlers. `db` is the one store every handler talks to. */
  class Portal {
    const db: Db
    var currentUser: Option<User>
    var activeTab: string
    var jobs: seq<Job>
    var apps: seq<Application>
    var searchQuery: string
    var locQuery: string
    var domainFilter: string
    var isBusy: bool
    var isSuccess: bool
    var isNewPostOpen: bool
    var isEmailOpen: bool
    var emailContent: string
    var aiTips: string
    var aiDraft: string
    var selectedApp: Option<Application>
    var jobForm: JobForm

    /** A fresh page over an existing store: nobody logged in, nothing listed. */
    constructor (db: Db)
      ensures this.db == db
      ensures currentUser == None && activeTab == "explore" && jobs == [] && apps == []
      ensures searchQuery == "" && locQuery == "" && domainFilter == ALL_DOMAINS
      ensures !isBusy && !isSuccess && !isNewPostOpen && !isEmailOpen
      ensures emailContent == "" && aiTips == "" && aiDraft == "" && selectedApp == None
      ensures jobForm == EMPTY_FORM
      ensures db.Valid() && JobsKnown(db.Apps(), db.Jobs()) ==> Valid()
    {
      this.db := db;
      currentUser := None;
      activeTab := "explore";
      jobs, apps := [], [];
      searchQuery, locQuery, domainFilter := "", "", ALL_DOMAINS;
      isBusy, isSuccess, isNewPostOpen, isEmailOpen := false, false, false, false;
      emailContent, aiTips, aiDraft := "", "", "";
      selectedApp := None;
      jobForm := EMPTY_FORM;
    }

    /**
     * The page's invariant: the store's collections are well formed, every
     * listed job is a stored job, and every stored application names a stored job.
     */
    ghost predicate Valid()
      reads this`jobs, db
    {
      && db.Valid()
      && (forall j :: j in jobs ==> j in db.Jobs())
      && JobsKnown(db.Apps(), db.Jobs())
    }

    /** Whether any of the three filter fields differs between two states. */
    static predicate FiltersChanged(before: Filters, after: Filters)
    {
      before != after
    }

    /** The filter every refresh passes to `getJobs`. */
    function CurrentFilters(): Filters
      reads this
    {
      Filters(Some(domainFilter), Some(searchQuery), Some(locQuery))
    }

    /** `fetchData`: with someone logged in, reload the filtered jobs and all applications. */
    method FetchData()
      requires Valid()
      modifies this`jobs, this`apps, this`isBusy, db
      ensures Valid()
      ensures currentUser.None? ==> jobs == old(jobs) && apps == old(apps) && isBusy == old(isBusy)
      ensures currentUser.None? ==> db.data == old(db.data)
      ensures currentUser.Some? ==>
        && db.Jobs() == Seeded(old(db.Jobs()))
        && db.Users() == old(db.Users()) && db.Apps() == old(db.Apps())
        && db.data - {JOBS} == old(db.data) - {JOBS}
        && jobs == FilterJobs(Some(CurrentFilters()), db.Jobs())
        && apps == db.Apps()
        && !isBusy
    {
      if currentUser.None? {
        return;
      }
      isBusy := true;
      var fetchedJobs := GetJobs(db, Some(CurrentFilters()));
      var fetchedApps := GetApplications(db, Some(currentUser.value.id));
      jobs := fetchedJobs;
      apps := fetchedApps;
      isBusy := false;
    }

    /**
     * Setting the filter fields. The refresh effect runs only when some field
     * differs from its previous value, and only when someone is logged in.
     */
    method ChangeFilters(domain: string, search: string, location: string)
      requires Valid()
      modifies this`domainFilter, this`searchQuery, this`locQuery, this`jobs, this`apps, this`isBusy, db
      ensures Valid()
      ensures domainFilter == domain && searchQuery == search && locQuery == location
      ensures currentUser.None? || !FiltersChanged(old(CurrentFilters()), CurrentFilters()) ==>
        jobs == old(jobs) && apps == old(apps) && isBusy == old(isBusy) && db.data == old(db.data)
      ensures currentUser.Some? && FiltersChanged(old(CurrentFilters()), CurrentFilters()) ==>
        && db.Jobs() == Seeded(old(db.Jobs()))
        && db.Users() == old(db.Users()) && db.Apps() == old(db.Apps())
        && db.data - {JOBS} == old(db.data) - {JOBS}
        && jobs == FilterJobs(Some(Filters(Some(domain), Some(search), Some(location))), db.Jobs())
        && apps == db.Apps()
        && !isBusy
    {
      var changed := (domain, search, location) != (domainFilter, searchQuery, locQuery);
      domainFilter, searchQuery, locQuery := domain, search, location;
      if changed && currentUser.Some? {
        FetchData();
      }
    }

    /** `handleLogin`: log in as the role's demo identity and open the role's first tab. */
    method HandleLogin(role: Role)
      requires Valid()
      modifies this`currentUser, this`activeTab, db
      ensures Valid()
      ensures currentUser.Some?
      ensures currentUser.value.email == (if role == HR then "admin@nexus.ai" else "arjun.dev@gmail.com")
      ensures currentUser.value.role == role
      ensures (db.Users(), currentUser.value) == FindOrCreate(old(db.Users()), DemoEmail(role), role)
      ensures currentUser.value in db.Users()
      ensures db.data - {USERS} == old(db.data) - {USERS}
      ensures activeTab == if role == HR then "dashboard" else "explore"
    {
      var email := DemoEmail(role);
      var user := Login(db, email, role);
      currentUser := Some(user);
      activeTab := if role == HR then "dashboard" else "explore";
    }

    /**
     * `handleApply`: score the user's resume against the job, store a pending
     * application at the front of the collection, then refresh.
     */
    method HandleApply(job: Job, scorer: Scorer, appId: string, appliedAt: string)
      requires Valid() && job in jobs
      modifies this`jobs, this`apps, this`isBusy, this`isSuccess, db
      ensures Valid()
      ensures old(currentUser).None? ==> unchanged(this) && unchanged(db)
      ensures currentUser.Some? ==>
        var u := currentUser.value;
        var analysis := AnalyzeResume(scorer, ResumeForScoring(u), job.title, job.description);
        && db.Apps() == [NewApplication(appId, appliedAt, u, job, analysis)] + old(db.Apps())
        && db.Jobs() == Seeded(old(db.Jobs()))
        && db.Users() == old(db.Users())
        && db.data - {APPS, JOBS} == old(db.data) - {APPS, JOBS}
        && apps == db.Apps()
        && jobs == FilterJobs(Some(CurrentFilters()), db.Jobs())
        && apps[0].status == Pending && apps[0].jobId == job.id
        && apps[0].candidateId == u.id && apps[0].candidateName == u.name
        && apps[0].atsScore == Some(analysis.score) && apps[0].aiFeedback == Some(analysis.feedback)
        && IsApplied(apps, job.id)
        && !isBusy && isSuccess
    {
      if currentUser.None? {
        return;
      }
      isBusy := true;
      var u := currentUser.value;
      var analysis := AnalyzeResume(scorer, ResumeForScoring(u), job.title, job.description);
      var newApp := NewApplication(appId, appliedAt, u, job, analysis);
      ghost var m0 := db.data;
      var _ := ApplyToJob(db, newApp);
      ghost var m1 := db.data;
      FetchData();
      TwoKeyFrame(m0, m1, db.data, APPS, JOBS);
      isBusy := false;
      isSuccess := true;
    }

    /** `handleCreateJob`: post the form as a new job with no vacancy filled, then refresh. */
    method HandleCreateJob(jobId: string)
      requires Valid()
      modifies this`jobs, this`apps, this`isBusy, this`isSuccess, this`isNewPostOpen, db
      ensures Valid()
      ensures db.Jobs() == [NewJob(jobForm, jobId)] + old(db.Jobs())
      ensures db.Jobs()[0].id == jobId && db.Jobs()[0].filledVacancies == 0
      ensures db.Jobs()[0].totalVacancies == jobForm.vac
      ensures db.Jobs()[0].title == jobForm.title && db.Jobs()[0].description == jobForm.desc
      ensures db.Jobs()[0].company.name == "NexusAI Global" && db.Jobs()[0].company.location == jobForm.loc
      ensures db.data - {JOBS} == old(db.data) - {JOBS}
      ensures currentUser.None? ==> jobs == old(jobs) && apps == old(apps)
      ensures currentUser.Some? ==> jobs == FilterJobs(Some(CurrentFilters()), db.Jobs()) && apps == db.Apps()
      ensures currentUser.Some? && Matches(Some(CurrentFilters()), NewJob(jobForm, jobId)) ==>
        jobs[0] == NewJob(jobForm, jobId)
      ensures !isNewPostOpen && !isBusy && isSuccess
    {
      isBusy := true;
      var newJob := NewJob(jobForm, jobId);
      ghost var before := db.Jobs();
      var _ := PostJob(db, newJob);
      FilterJobsCons(Some(CurrentFilters()), newJob, before);
      FetchData();
      isNewPostOpen := false;
      isBusy := false;
      isSuccess := true;
    }

    /** `handleStatusChange`: store the new status on the matching applications, then refresh. */
    method HandleStatusChange(appId: string, status: Status)
      requires Valid()
      modifies this`jobs, this`apps, this`isBusy, this`isSuccess, db
      ensures Valid()
      ensures db.Apps() == WithStatus(old(db.Apps()), appId, status)
      ensures db.Users() == old(db.Users())
      ensures db.data - {APPS, JOBS} == old(db.data) - {APPS, JOBS}
      ensures db.Jobs() == if currentUser.Some? then Seeded(old(db.Jobs())) else old(db.Jobs())
      ensures currentUser.None? ==> jobs == old(jobs) && apps == old(apps)
      ensures currentUser.Some? ==> jobs == FilterJobs(Some(CurrentFilters()), db.Jobs()) && apps == db.Apps()
      ensures !isBusy && isSuccess
    {
      isBusy := true;
      ghost var m0 := db.data;
      UpdateApplicationStatus(db, appId, status);
      ghost var m1 := db.data;
      FetchData();
      TwoKeyFrame(m0, m1, db.data, APPS, JOBS);
      isBusy := false;
      isSuccess := true;
    }

    /** `handleGetTips`: with someone logged in, show the AI's (or the generic) profile tips. */
    method HandleGetTips(tips: User -> Option<string>)
      modifies this`aiTips, this`isBusy
      ensures old(currentUser).None? ==> unchanged(this)
      ensures currentUser.Some? ==> aiTips == ProfileTips(tips, currentUser.value) && !isBusy
    {
      if currentUser.None? {
        return;
      }
      isBusy := true;
      aiTips := ProfileTips(tips, currentUser.value);
      isBusy := false;
    }

    /** `handleSuggestReply`: show the AI's (or the generic) reply draft. */
    method HandleSuggestReply(message: string, role: string, reply: (string, string) -> Option<string>)
      modifies this`aiDraft, this`isBusy
      ensures aiDraft == SuggestReply(reply, message, role) && !isBusy
    {
      isBusy := true;
      aiDraft := SuggestReply(reply, message, role);
      isBusy := false;
    }

    /** `handleSendEmail`: draft an email naming the candidate and the listed job's title, and open it. */
    method HandleSendEmail(app: Application, kind: EmailKind, draft: (EmailKind, string, string) -> Option<string>)
      modifies this`selectedApp, this`emailContent, this`isEmailOpen, this`isBusy
      ensures selectedApp == Some(app)
      ensures emailContent == EmailTemplate(draft, kind, app.candidateName, JobTitleFor(jobs, app.jobId))
      ensures draft(kind, app.candidateName, JobTitleFor(jobs, app.jobId)).None? ==>
        Includes(emailContent, app.candidateName) && Includes(emailContent, JobTitleFor(jobs, app.jobId))
      ensures isEmailOpen && !isBusy
    {
      isBusy := true;
      selectedApp := Some(app);
      var title := JobTitleFor(jobs, app.jobId);
      emailContent := EmailTemplate(draft, kind, app.candidateName, title);
      isEmailOpen := true;
      isBusy := false;
    }
  }
}
