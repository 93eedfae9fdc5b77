/**
 * The generative-AI calls the workflow makes, each reduced to its reply: a
 * reply of `None` stands for a call that threw, and is replaced by the fixed
 * fallback the service returns instead. Prompts and response parsing are not
 * part of this model.
 */
module Gemini {
  import opened Wrappers
  import opened Text
  import opened Types

  /** What the resume scorer returns. */
  datatype Analysis = Analysis(score: int, feedback: string, missingSkills: seq<string>)

  const FALLBACK_ANALYSIS := Analysis(
    65, "Unable to fully parse. Basic match detected based on role keywords.",
    ["Specific framework experience", "System Design"])

  const FALLBACK_TIPS :=
    "Add quantifiable achievements, update your profile headline, and list your top 3 core technical certifications."

  const FALLBACK_REPLY :=
    "Thank you for reaching out! I am very interested in this role and would love to discuss further. When would be a good time for a call?"

  /** The scoring service's reply to (resume text, job title, job description). */
  type Scorer = (string, string, string) -> Option<Analysis>

  /** `analyzeResumeAI`: the service's analysis, or the fixed fallback when the call fails. */
  function AnalyzeResume(scorer: Scorer, resume: string, title: string, description: string): (a: Analysis)
    ensures scorer(resume, title, description).Some? ==> a == scorer(resume, title, description).value
    ensures scorer(resume, title, description).None? ==> a.score == 65 && a.feedback != ""
  {
    scorer(resume, title, description).GetOr(FALLBACK_ANALYSIS)
  }

  /** `getProfileTipsAI`: the service's tips for the user, or the generic tips. */
  function ProfileTips(tips: User -> Option<string>, user: User): (t: string)
    ensures tips(user).Some? ==> t == tips(user).value
    ensures tips(user).None? ==> t == FALLBACK_TIPS
  {
    tips(user).GetOr(FALLBACK_TIPS)
  }

  /** `suggestMessageReplyAI`: the service's draft reply, or the generic reply. */
  function SuggestReply(reply: (string, string) -> Option<string>, message: string, jobTitle: string): (t: string)
    ensures reply(message, jobTitle).Some? ==> t == reply(message, jobTitle).value
    ensures reply(message, jobTitle).None? ==> t == FALLBACK_REPLY
  {
    reply(message, jobTitle).GetOr(FALLBACK_REPLY)
  }

  datatype EmailKind = Offer | Interview

  /** The templated email used when drafting fails. */
  function FallbackEmail(name: string, job: string): (text: string)
    ensures Includes(text, name) && Includes(text, job)
  {
    var tail := " position, let's schedule a call.";
    IncludesInside("Hi ", name, ", regarding the " + job + tail);
    assert "Hi " + name + (", regarding the " + job + tail) == ("Hi " + name + ", regarding the ") + job + tail;
    IncludesInside("Hi " + name + ", regarding the ", job, tail);
    "Hi " + name + ", regarding the " + job + tail
  }

  /** `generateEmailTemplateAI`: the drafted email, or a template that names the candidate and the job. */
  function EmailTemplate(draft: (EmailKind, string, string) -> Option<string>, kind: EmailKind,
                         name: string, job: string): (text: string)
    ensures draft(kind, name, job).Some? ==> text == draft(kind, name, job).value
    ensures draft(kind, name, job).None? ==> Includes(text, name) && Includes(text, job)
  {
    match draft(kind, name, job)
    case Some(t) => t
    case None => FallbackEmail(name, job)
  }
}
