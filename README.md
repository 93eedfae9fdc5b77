# Job portal workflow and simulated backend, in Dafny

This project models the core of a job-portal single-page application. Candidates browse and apply to job
postings. HR users post jobs and move applications through their status. The model covers two parts of
the source:

- **The simulated backend** (`services/apiService.ts`). It is a keyed document store, with one whole
  collection of users, jobs or applications per storage key. On top of it sit the endpoints: `login`
  (find-or-create), `getJobs` (first-run seed plus a three-part conjunctive filter), `postJob`,
  `getApplications`, `applyToJob` and `updateApplicationStatus`.
- **The workflow handlers** of the page component (`App.tsx`, lines 45-170). They drive a controller
  whose state is the logged-in user, the listed jobs and applications, the filter fields, the busy
  flag and the AI-drafted texts. The handlers are `fetchData`, `handleLogin`, `handleApply`,
  `handleCreateJob`, `handleStatusChange`, `handleGetTips`, `handleSuggestReply` and
  `handleSendEmail`. The "already applied" test on the job cards is modelled too.

Layout, one module per file:

- `wrappers.dfy`, `Wrappers`: the optional value (`undefined`).
- `seqs.dfy`, `Seqs`: `find` as `FirstIndex`, and order-preserving subsequences.
- `text.dfy`, `Text`: `toLowerCase` (ASCII only), `includes` and `join`.
- `types.dfy`, `Types`: the records of `types.ts`.
- `store.dfy`, `Store`: the key-value storage as the class `Db`, with a map from key to a sequence of
  records. A key never saved reads as the empty collection.
- `api_service.dfy`, `ApiService`: each endpoint is a method over `Db` that reads a collection,
  computes the new one and saves it. The filter, the prepend and the status update are pure functions
  with lemmas.
- `gemini.dfy`, `Gemini`: each AI call is reduced to the reply of an oracle passed as a parameter.
  `None` stands for a call that threw and is replaced by the service's fixed fallback.
- `app.dfy`, `App`: the controller class `Portal`. Its handlers name, in `modifies`, exactly the state
  fields they assign.

Conventions:

- The JavaScript falsy tests are written out. `!filters?.domain` means absent or empty. So do
  `resumeText || …` and `job?.title || 'Position'`.
- `skills?.join(", ")` on a user without skills yields the text `undefined`.
- Record ids, dates and AI replies are parameters.
- `Db.Valid()` says that each of the three collections holds records of its own kind. Every endpoint
  preserves it.
- `Portal.Valid()` adds the page's invariant: every listed job is a stored job, and every stored
  application's `jobId` names a stored job. A fresh page over such a store satisfies it, and every
  handler that writes the store or the lists preserves it. No core endpoint removes a job. `handleApply`
  itself does not check that its job exists. Its only call site is a button on a listed job
  (`App.tsx:352`), so `HandleApply` requires the job to be among the listed ones.

Where a stricter behaviour could be expected, the model follows the code:

- A status change for an id that no application carries is a silent no-op, not an error.
- Any status may follow any other. No transition is refused.
- `handleApply` with nobody logged in returns without doing anything. It raises no validation error.
- Applying twice to the same job stores two applications. There is no duplicate check.
- `getApplications` ignores the viewer's id and returns every application.
- Nothing guards a listing against being overwritten by an earlier, slower fetch.

## Model

| member | source | states |
|---|---|---|
| `Store.Db.constructor` | services/apiService.ts:22-25 | the store starts with the given contents; an empty store satisfies the invariant every endpoint needs |
| `Store.Db.Get` | services/apiService.ts:23 | a key that was never saved reads as the empty collection |
| `Store.Db.Save` | services/apiService.ts:24 | the whole collection under the key is replaced; every other key reads as before |
| `Store.EncodeUsers` | services/apiService.ts:23-24 | a users collection written to the store reads back unchanged |
| `Store.EncodeJobs` | services/apiService.ts:23-24 | a jobs collection written to the store reads back unchanged |
| `Store.EncodeApps` | services/apiService.ts:23-24 | an applications collection written to the store reads back unchanged |
| `Seqs.FirstIndex` | services/apiService.ts:31 | `find`: the index returned satisfies the test and no earlier element does; none is returned only when no element does |
| `ApiService.NewUser` | services/apiService.ts:35-45 | the created user carries the given email and role; its id is `hr_admin` for HR and `cand_arjun` otherwise |
| `ApiService.FindOrCreate` | services/apiService.ts:30-48 | if a user with this email and role is stored, the first such user is returned and the collection is unchanged; otherwise exactly one new user is appended at the end and returned |
| `ApiService.LoginIsIdempotent` | services/apiService.ts:29-49 | a second login with the same email and role returns the same user and stores nothing new |
| `ApiService.Login` | services/apiService.ts:29-49 | the stored users and the returned user are those of find-or-create; jobs and applications are untouched; nothing is written when the user exists |
| `ApiService.SeedJob` | services/apiService.ts:56-71 | the seed posting has id `j1`, exactly two vacancies with none filled, and is listed under its own domain |
| `ApiService.Seeded` | services/apiService.ts:53-73 | the collection after seeding is never empty, and a non-empty collection is left as it was |
| `ApiService.MatchDomain` | services/apiService.ts:76 | a job passes a filter naming its own domain; a domain filter that is neither empty nor `All Domains` passes exactly the jobs of that domain |
| `ApiService.MatchSearch` | services/apiService.ts:77 | a job is found by a search for its own title and for its own company name |
| `ApiService.MatchLocation` | services/apiService.ts:78 | a job is found by a location search for its own company location |
| `ApiService.Matches` | services/apiService.ts:79 | a job passes only when all three tests pass, and with no criteria every job passes |
| `ApiService.FilterJobs` | services/apiService.ts:75-80 | a job is listed if and only if it is stored and passes the domain, search and location tests together |
| `ApiService.FilterJobsCons` | services/apiService.ts:75-80 | a job at the front of the collection is at the front of the listing exactly when it matches |
| `ApiService.FilterJobsIsSubsequence` | services/apiService.ts:75-80 | the listing is an order-preserving subsequence of the stored jobs |
| `ApiService.FilterJobsEmbedding` | services/apiService.ts:75-80 | it gives the strictly increasing positions in the collection that the listed jobs come from |
| `ApiService.FilterJobsCounts` | services/apiService.ts:75-80 | a matching job is listed as many times as it is stored, and a non-matching one never |
| `ApiService.UnfilteredListsEverything` | services/apiService.ts:76-78 | with every criterion absent or empty, and the domain possibly `All Domains`, the listing is the whole collection in order |
| `ApiService.LowerQueries` | services/apiService.ts:77-78 | lower-casing the query texts keeps the domain and keeps which criteria are blank |
| `ApiService.QueryCaseIsIrrelevant` | services/apiService.ts:77-78 | search and location match the same jobs whatever the case of the query text |
| `ApiService.GetJobs` | services/apiService.ts:52-81 | an empty jobs collection is first replaced by the single seed job; otherwise the store is untouched; the result is the filter applied to the stored jobs |
| `ApiService.BootstrapThenList` | services/apiService.ts:53-80 | on an empty store, the first listing persists the seed job `j1`, and a later unfiltered listing returns exactly that job |
| `ApiService.PostJob` | services/apiService.ts:83-88 | the stored jobs become the new job followed by the old ones; the job is returned |
| `ApiService.GetApplications` | services/apiService.ts:91-94 | the stored applications, as they are, whatever id is passed |
| `ApiService.ApplyToJob` | services/apiService.ts:96-100 | the stored applications become the new one followed by the old ones; the application is returned |
| `ApiService.WithStatus` | services/apiService.ts:104 | same length and order; each record with the id has the new status and every other field unchanged; every other record is unchanged |
| `ApiService.UnknownIdIsNoOp` | services/apiService.ts:102-106 | an id no application carries leaves the collection unchanged (a no-op, not an error) |
| `ApiService.LastStatusWins` | services/apiService.ts:104 | a later status change on the same id overrides an earlier one; no transition is refused |
| `ApiService.DistinctUpdatesCommute` | services/apiService.ts:104 | status changes on different ids can be applied in either order |
| `ApiService.UpdateApplicationStatus` | services/apiService.ts:102-106 | the stored applications become the status update of the old ones; users and jobs are untouched |
| `Text.LowerChar` | services/apiService.ts:77-78 | the folded character is never an upper-case ASCII letter; only upper-case letters change |
| `Text.ToLower` | services/apiService.ts:77-78 | same length, each character folded |
| `Text.ToLowerIdempotent` | services/apiService.ts:77-78 | folding twice is folding once |
| `Text.Includes` | services/apiService.ts:77-78 | `includes`: an empty needle is always found, and a needle longer than the text never is |
| `Text.IncludesIff` | services/apiService.ts:77-78 | `includes` holds exactly when the needle occurs at some position of the text |
| `Text.Join` | App.tsx:87 | `join`: no parts give the empty text; the text starts with the first part, followed by the separator when more parts follow |
| `Text.JoinIncludesParts` | App.tsx:87 | every joined part can be found in the joined text |
| `Gemini.AnalyzeResume` | services/geminiService.ts:9-37 | the service's analysis when the call succeeds; on failure a score of 65 with non-empty feedback |
| `Gemini.ProfileTips` | services/geminiService.ts:42-54 | the service's tips, or the fixed generic tips on failure |
| `Gemini.SuggestReply` | services/geminiService.ts:59-71 | the service's draft, or the fixed generic reply on failure |
| `Gemini.FallbackEmail` | services/geminiService.ts:98 | the fallback email contains both the candidate's name and the job title |
| `Gemini.EmailTemplate` | services/geminiService.ts:87-100 | the service's draft, or a fallback text that contains both the candidate's name and the job title |
| `App.DemoEmail` | App.tsx:75 | the email is `admin@nexus.ai` exactly for HR and `arjun.dev@gmail.com` exactly for a candidate, so the two roles never share a demo identity |
| `App.ResumeForScoring` | App.tsx:87 | a non-empty resume is passed as is; otherwise the text starts with `Profile skills: ` and contains every skill |
| `App.NewApplication` | App.tsx:92-102 | the new application is pending, carries the given id and date, the job's id, the candidate's id and name, and the analysis's score and feedback |
| `App.NewJob` | App.tsx:113-131 | the new job carries the given id, the form's title, domain, description, location and vacancies, company `NexusAI Global`, and no vacancy filled |
| `App.IsApplied` | App.tsx:352 | a job counts as applied to if and only if some listed application has its id as `jobId` |
| `App.JobTitleFor` | App.tsx:165-166 | the title of the first listed job with the id when non-empty, otherwise `Position`; never empty |
| `App.Portal.constructor` | App.tsx:19-43 | the page starts with nobody logged in, the explore tab, nothing listed, the `All Domains` filter and an idle busy flag; over a store whose applications all name stored jobs, the page invariant holds |
| `App.Portal.FetchData` | App.tsx:46-62 | the page invariant is preserved; with nobody logged in nothing changes; otherwise the jobs are the filtered listing for the current filters, the applications are the stored ones, and the busy flag ends false |
| `App.Portal.ChangeFilters` | App.tsx:64-67 | the page invariant is preserved; the new filter values are kept; when some value changed and someone is logged in, the lists are reloaded under them with only the jobs key possibly written; otherwise nothing else changes |
| `App.Portal.HandleLogin` | App.tsx:74-79 | the role's demo email (`admin@nexus.ai` for HR, `arjun.dev@gmail.com` otherwise) is logged in by find-or-create, the page invariant is preserved; that user becomes current and is stored; the tab is `dashboard` for HR and `explore` otherwise |
| `App.Portal.HandleApply` | App.tsx:81-108 | for a listed job, the page invariant is preserved, so the new application names a stored job; with nobody logged in nothing changes; otherwise a pending application is stored at the front, with the user, the job and the analysis (or its fallback) of the user's scoring text; the stored users and every key other than applications and jobs are unchanged; after the refresh the job counts as applied and the busy flag is false |
| `App.Portal.HandleCreateJob` | App.tsx:110-137 | the page invariant is preserved; the form becomes a job stored at the front, with no vacancy filled, company `NexusAI Global`, the form's location, vacancies, title and description; the listing shows it first when it matches the filters |
| `App.Portal.HandleStatusChange` | App.tsx:139-145 | the page invariant is preserved; the stored applications get the status update and are reloaded; the stored users and every key other than applications and jobs are unchanged; the busy flag ends false |
| `App.Portal.HandleGetTips` | App.tsx:147-153 | with someone logged in, the tips shown are the service's or the fallback; otherwise nothing changes |
| `App.Portal.HandleSuggestReply` | App.tsx:155-160 | the draft shown is the service's reply or the fallback |
| `App.Portal.HandleSendEmail` | App.tsx:162-170 | the email names the candidate and the title of the listed job, or `Position`; a fallback email contains both; the email panel opens |

## Left out

- Browser storage and JSON encoding. The store is a map from key to a sequence of records. `Db.Valid()`
  assumes that each collection holds records of its own kind, as the endpoints write them.
- Asynchrony. Each handler runs to completion as one step, so the busy flag is only observed at its
  final value, `false`. Interleaved or stale fetches are not modelled. The source has no guard against
  a slower, earlier fetch overwriting a later one. Lost updates between concurrent read-modify-write
  calls are not modelled either.
- The success toast's timer. `isSuccess` is set and its 3-second reset is not modelled.
- React effects. The refresh that follows a change of the logged-in user (`App.tsx:46-48`) is
  `FetchData`. The caller invokes it after `HandleLogin`. The filter effect (`App.tsx:65-67`) is folded
  into `ChangeFilters`. It refreshes only when a filter value differs from the previous one, which
  stands for React's dependency comparison between renders. Several setter calls batched into one
  render are not modelled.
- Clocks and randomness. Ids built from `Date.now()`, the ISO date and the random match rank are
  parameters or not modelled. Ids are not claimed to be unique.
- The generative-AI client. Prompts, response parsing and `getMapLinkAI` are left out. A reply's score
  is taken to be a whole number.
- Case folding. `toLowerCase` is modelled for ASCII letters only. Other characters are kept as they
  are.
- Presentation and communication. The JSX markup, `components/Layout.tsx`, `components/JobCard.tsx`
  (beyond its applied flag) and `components/ChatAndCall.tsx` are not part of this model.
- Form and panel setters. The page's state setters other than the filters are not modelled. The job
  form keeps its value.
