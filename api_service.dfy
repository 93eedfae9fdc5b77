/**
 * The simulated REST backend: login, job listing with a first-run seed and a
 * three-part filter, job and application creation, and status updates. Every
 * endpoint reads a whole collection from the store, computes the new one and
 * writes it back whole.
 */
module ApiService {
  import opened Wrappers
  import opened Seqs
  import opened Text
  import opened Types
  import opened Store

  // ---------------------------------------------------------------- login

  /** The account test `login` searches with: same email and same role. */
  function SameAccount(email: string, role: Role): User -> bool
  {
    (u: User) => u.email == email && u.role == role
  }

  /** The demo identity `login` creates for an (email, role) pair it has not seen. */
  function NewUser(email: string, role: Role): (u: User)
    ensures u.email == email && u.role == role
    ensures u.id == if role == HR then "hr_admin" else "cand_arjun"
  {
    if role == HR then
      User("hr_admin", "Nexus HR Admin", email, role, None, Some("Bangalore, India"),
           Some("Lead Recruiter"), None, None, None)
    else
      User("cand_arjun", "Arjun Sharma", email, role, None, Some("Bangalore, India"),
           Some("Senior Full Stack Developer"), Some("6 Years"),
           Some(["React", "Node.js", "PostgreSQL", "System Design"]),
           Some("Highly skilled developer with expertise in scalable React apps and cloud architecture."))
  }

  /**
   * The users collection and the user that `login` yields: the first stored user
   * with this email and role, or else a new demo user appended at the end.
   */
  function FindOrCreate(users: seq<User>, email: string, role: Role): (r: (seq<User>, User))
    ensures r.1.email == email && r.1.role == role
    ensures (exists i :: 0 <= i < |users| && users[i].email == email && users[i].role == role) ==>
      && r.0 == users
      && exists i :: 0 <= i < |users| && r.1 == users[i]
           && forall k :: 0 <= k < i ==> !(users[k].email == email && users[k].role == role)
    ensures (forall i :: 0 <= i < |users| ==> !(users[i].email == email && users[i].role == role)) ==>
      r == (users + [NewUser(email, role)], NewUser(email, role))
  {
    match FirstIndex(users, SameAccount(email, role))
    case Some(i) => (users, users[i])
    case None => (users + [NewUser(email, role)], NewUser(email, role))
  }

  /** Logging in again with the same email and role finds the same user and stores nothing new. */
  lemma {:induction false} LoginIsIdempotent(users: seq<User>, email: string, role: Role)
    ensures FindOrCreate(FindOrCreate(users, email, role).0, email, role) == FindOrCreate(users, email, role)
  {
    var (after, u) := FindOrCreate(users, email, role);
    if FirstIndex(users, SameAccount(email, role)).None? {
      var found := FirstIndex(after, SameAccount(email, role));
      assert SameAccount(email, role)(after[|users|]);
      assert found.Some? && found.value == |users|;
    }
  }

  /** `login`: find-or-create by (email, role) over the stored users collection. */
  method Login(db: Db, email: string, role: Role) returns (user: User)
    requires db.Valid()
    modifies db
    ensures db.Valid()
    ensures (db.Users(), user) == FindOrCreate(old(db.Users()), email, role)
    ensures db.Users() == old(db.Users()) ==> db.data == old(db.data)
    ensures db.Jobs() == old(db.Jobs()) && db.Apps() == old(db.Apps())
    ensures db.data - {USERS} == old(db.data) - {USERS}
  {
    var users := db.Users();
    var found := FirstIndex(users, SameAccount(email, role));
    if found.Some? {
      user := users[found.value];
    } else {
      user := NewUser(email, role);
      db.Save(USERS, EncodeUsers(users + [user]));
    }
  }

  // ---------------------------------------------------------------- jobs

  const ALL_DOMAINS := "All Domains"

  /** The one demo posting stored on the first listing of an empty jobs collection. */
  function SeedJob(): (j: Job)
    ensures j.id == "j1" && j.filledVacancies == 0 && j.totalVacancies == 2
    ensures Matches(Some(Filters(Some(j.domain), None, None)), j)
  {
    Job("j1", "Senior Frontend Architect", "Engineering",
        "Build high-performance UIs using React and Gemini API.",
        Company("NexusAI Global", "\U{1F537}", "AI", "Bangalore, KA"),
        ["React", "TS"], "8-10 Years", "45-60 LPA", 2, 0, "1 day ago", "Immediate")
  }

  /** The jobs collection as `getJobs` leaves it: seeded when empty, untouched otherwise. */
  function Seeded(jobs: seq<Job>): (r: seq<Job>)
    ensures r != []
    ensures jobs != [] ==> r == jobs
  {
    if jobs == [] then [SeedJob()] else jobs
  }

  /** The optional criteria `getJobs` accepts. */
  datatype Filters = Filters(domain: Option<string>, search: Option<string>, location: Option<string>)

  /** JavaScript's `!s` on an optional string: absent or empty. */
  predicate Blank(s: Option<string>)
  {
    s.None? || s.value == ""
  }

  /** Case-insensitive `includes`, both sides folded to lower case. */
  predicate IncludesIgnoringCase(hay: string, needle: string)
  {
    Includes(ToLower(hay), ToLower(needle))
  }

  /** Domain test: absent, empty or the sentinel passes every job; any other value must equal the job's. */
  predicate MatchDomain(f: Option<Filters>, j: Job): (r: bool)
    ensures f.Some? && f.value.domain == Some(j.domain) ==> r
    ensures f.Some? && !Blank(f.value.domain) && f.value.domain.value != ALL_DOMAINS ==>
      (r <==> j.domain == f.value.domain.value)
  {
    f.None? || Blank(f.value.domain) || f.value.domain.value == ALL_DOMAINS || j.domain == f.value.domain.value
  }

  /** Search test: a job is found by its own title and by its own company name, in any case. */
  predicate MatchSearch(f: Option<Filters>, j: Job): (r: bool)
    ensures f.Some? && f.value.search == Some(j.title) ==> r
    ensures f.Some? && f.value.search == Some(j.company.name) ==> r
  {
    || f.None? || Blank(f.value.search)
    || IncludesIgnoringCase(j.title, f.value.search.value)
    || IncludesIgnoringCase(j.company.name, f.value.search.value)
  }

  /** Location test: a job is found by its own company location, in any case. */
  predicate MatchLocation(f: Option<Filters>, j: Job): (r: bool)
    ensures f.Some? && f.value.location == Some(j.company.location) ==> r
  {
    f.None? || Blank(f.value.location) || IncludesIgnoringCase(j.company.location, f.value.location.value)
  }

  /** A job is listed only when every supplied criterion passes. */
  predicate Matches(f: Option<Filters>, j: Job): (r: bool)
    ensures NoCriteria(f) ==> r
    ensures r ==> MatchDomain(f, j) && MatchSearch(f, j) && MatchLocation(f, j)
  {
    MatchDomain(f, j) && MatchSearch(f, j) && MatchLocation(f, j)
  }

  /** The listing `getJobs` returns: the jobs that match, in stored order. */
  function FilterJobs(f: Option<Filters>, jobs: seq<Job>): (r: seq<Job>)
    ensures |r| <= |jobs|
    ensures forall j :: j in r <==> j in jobs && Matches(f, j)
  {
    if jobs == [] then []
    else if Matches(f, jobs[0]) then [jobs[0]] + FilterJobs(f, jobs[1..])
    else FilterJobs(f, jobs[1..])
  }

  /** A job posted at the front is listed first exactly when it matches. */
  lemma FilterJobsCons(f: Option<Filters>, j: Job, jobs: seq<Job>)
    ensures FilterJobs(f, [j] + jobs) == (if Matches(f, j) then [j] else []) + FilterJobs(f, jobs)
  {
    assert ([j] + jobs)[1..] == jobs;
  }

  /** The listing keeps the stored order: it is a subsequence of the collection. */
  lemma {:induction false} FilterJobsIsSubsequence(f: Option<Filters>, jobs: seq<Job>)
    ensures IsSubsequence(FilterJobs(f, jobs), jobs)
  {
    var idx := FilterJobsEmbedding(f, jobs);
  }

  /** The positions in `jobs` that the listing draws its entries from. */
  lemma {:induction false} FilterJobsEmbedding(f: Option<Filters>, jobs: seq<Job>) returns (idx: seq<nat>)
    ensures Embeds(idx, FilterJobs(f, jobs), jobs)
  {
    if jobs == [] {
      idx := [];
    } else {
      var rest := FilterJobsEmbedding(f, jobs[1..]);
      assert jobs == [jobs[0]] + jobs[1..];
      if Matches(f, jobs[0]) {
        EmbedsTake(rest, FilterJobs(f, jobs[1..]), jobs[0], jobs[1..]);
        idx := [0] + Shift(rest);
      } else {
        EmbedsSkip(rest, FilterJobs(f, jobs[1..]), jobs[0], jobs[1..]);
        idx := Shift(rest);
      }
    }
  }

  /** A matching job is listed as often as it is stored; a failing one never. */
  lemma {:induction false} FilterJobsCounts(f: Option<Filters>, jobs: seq<Job>, j: Job)
    ensures multiset(FilterJobs(f, jobs))[j] == if Matches(f, j) then multiset(jobs)[j] else 0
  {
    if jobs != [] {
      FilterJobsCounts(f, jobs[1..], j);
      assert jobs == [jobs[0]] + jobs[1..];
    }
  }

  /** Criteria that are all absent, empty or the all-domains sentinel. */
  predicate NoCriteria(f: Option<Filters>)
  {
    || f.None?
    || ((Blank(f.value.domain) || f.value.domain.value == ALL_DOMAINS)
        && Blank(f.value.search) && Blank(f.value.location))
  }

  /** Without criteria the listing is the whole stored collection, in order. */
  lemma {:induction false} UnfilteredListsEverything(f: Option<Filters>, jobs: seq<Job>)
    requires NoCriteria(f)
    ensures FilterJobs(f, jobs) == jobs
  {
    if jobs != [] {
      UnfilteredListsEverything(f, jobs[1..]);
    }
  }

  /** The filter with its text criteria folded to lower case. */
  function LowerQueries(f: Filters): (g: Filters)
    ensures g.domain == f.domain
    ensures Blank(g.search) == Blank(f.search) && Blank(g.location) == Blank(f.location)
  {
    Filters(
      f.domain,
      if f.search.Some? then Some(ToLower(f.search.value)) else None,
      if f.location.Some? then Some(ToLower(f.location.value)) else None)
  }

  /** Search and location text match regardless of the case the user typed. */
  lemma QueryCaseIsIrrelevant(f: Filters, j: Job)
    ensures Matches(Some(f), j) == Matches(Some(LowerQueries(f)), j)
  {
    if f.search.Some? {
      ToLowerIdempotent(f.search.value);
    }
    if f.location.Some? {
      ToLowerIdempotent(f.location.value);
    }
  }

  /** `getJobs`: seed an empty collection, then list the jobs that match. */
  method GetJobs(db: Db, filters: Option<Filters>) returns (jobs: seq<Job>)
    requires db.Valid()
    modifies db
    ensures db.Valid()
    ensures db.Jobs() == Seeded(old(db.Jobs()))
    ensures old(db.Jobs()) != [] ==> db.data == old(db.data)
    ensures db.Users() == old(db.Users()) && db.Apps() == old(db.Apps())
    ensures db.data - {JOBS} == old(db.data) - {JOBS}
    ensures jobs == FilterJobs(filters, db.Jobs())
  {
    var stored := db.Jobs();
    if |stored| == 0 {
      stored := [SeedJob()];
      db.Save(JOBS, EncodeJobs(stored));
    }
    jobs := FilterJobs(filters, stored);
  }

  /** First-run bootstrap: listing an empty collection stores the seed, which a later unfiltered listing returns. */
  method BootstrapThenList(db: Db, f: Option<Filters>) returns (first: seq<Job>, second: seq<Job>)
    requires db.Valid() && db.Jobs() == []
    modifies db
    ensures db.Valid() && db.Jobs() == [SeedJob()]
    ensures first == FilterJobs(f, [SeedJob()])
    ensures second == [SeedJob()] && second[0].id == "j1"
  {
    first := GetJobs(db, f);
    second := GetJobs(db, None);
  }

  /** `postJob`: the new posting goes to the front of the collection. */
  method PostJob(db: Db, job: Job) returns (posted: Job)
    requires db.Valid()
    modifies db
    ensures db.Valid()
    ensures posted == job
    ensures db.Jobs() == [job] + old(db.Jobs())
    ensures db.Users() == old(db.Users()) && db.Apps() == old(db.Apps())
    ensures db.data - {JOBS} == old(db.data) - {JOBS}
  {
    var jobs := db.Jobs();
    db.Save(JOBS, EncodeJobs([job] + jobs));
    posted := job;
  }

  // ---------------------------------------------------------------- applications

  /** `getApplications`: every stored application, whoever asks. */
  method GetApplications(db: Db, hrId: Option<string>) returns (apps: seq<Application>)
    requires db.Valid()
    ensures apps == db.Apps()
  {
    apps := db.Apps();
  }

  /** `applyToJob`: the new application goes to the front of the collection. */
  method ApplyToJob(db: Db, app: Application) returns (applied: Application)
    requires db.Valid()
    modifies db
    ensures db.Valid()
    ensures applied == app
    ensures db.Apps() == [app] + old(db.Apps())
    ensures db.Users() == old(db.Users()) && db.Jobs() == old(db.Jobs())
    ensures db.data - {APPS} == old(db.data) - {APPS}
  {
    var apps := db.Apps();
    db.Save(APPS, EncodeApps([app] + apps));
    applied := app;
  }

  /** The collection after a status change: matching records get `status`, nothing else moves. */
  function WithStatus(apps: seq<Application>, appId: string, status: Status): (r: seq<Application>)
    ensures |r| == |apps|
    ensures forall i :: 0 <= i < |apps| ==>
      r[i] == if apps[i].id == appId then apps[i].(status := status) else apps[i]
  {
    if apps == [] then []
    else [if apps[0].id == appId then apps[0].(status := status) else apps[0]]
         + WithStatus(apps[1..], appId, status)
  }

  /** An id that no application carries changes nothing; it is not an error. */
  lemma UnknownIdIsNoOp(apps: seq<Application>, appId: string, status: Status)
    requires forall i :: 0 <= i < |apps| ==> apps[i].id != appId
    ensures WithStatus(apps, appId, status) == apps
  {
  }

  /** A later status change on the same id overrides an earlier one. */
  lemma LastStatusWins(apps: seq<Application>, appId: string, s1: Status, s2: Status)
    ensures WithStatus(WithStatus(apps, appId, s1), appId, s2) == WithStatus(apps, appId, s2)
  {
  }

  /** Status changes on different ids commute. */
  lemma DistinctUpdatesCommute(apps: seq<Application>, id1: string, s1: Status, id2: string, s2: Status)
    requires id1 != id2
    ensures WithStatus(WithStatus(apps, id1, s1), id2, s2) == WithStatus(WithStatus(apps, id2, s2), id1, s1)
  {
  }

  /** `updateApplicationStatus`: rewrite the collection with the new status on matching ids. */
  method UpdateApplicationStatus(db: Db, appId: string, status: Status)
    requires db.Valid()
    modifies db
    ensures db.Valid()
    ensures db.Apps() == WithStatus(old(db.Apps()), appId, status)
    ensures db.Users() == old(db.Users()) && db.Jobs() == old(db.Jobs())
    ensures db.data - {APPS} == old(db.data) - {APPS}
  {
    var apps := db.Apps();
    db.Save(APPS, EncodeApps(WithStatus(apps, appId, status)));
  }
}
