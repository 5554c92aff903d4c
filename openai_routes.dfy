/** The four text-generation handlers of routes/openai.js. Each one checks its required
    fields, builds a prompt from a template literal with `||` defaults, hands one chat
    completion call to `retryWithBackoff` with its default budget (3 calls, 1000 ms first
    delay), and answers with the first choice's text or a 500 carrying the error message.

    The provider is modelled by what each invocation of the completion call yields for a
    given request; the retry wrapper by its reference behaviour `Retry.Expected`. */
module OpenAiRoutes {
  import opened JsValues
  import opened Retry

  const ChatModel := "gpt-3.5-turbo"
  const DefaultRetries := 3
  const DefaultDelay := 1000

  /** The arguments of `openai.chat.completions.create`: model, one user message, max_tokens. */
  datatype ChatRequest = ChatRequest(model: string, prompt: string, maxTokens: nat)

  /** A completion's `choices`, each one given by its `message.content`. */
  type Completion = seq<string>

  /** `provider(req)(i)` is what the i-th completion call with request `req` yields. */
  type Provider = ChatRequest -> nat -> Attempt<Completion>

  /** What a handler decides before calling out: reject with 400, or make this request. */
  datatype Plan = Reject(error: string) | Ask(request: ChatRequest)

  /** The HTTP answer: 400 with `{error}`, 200 with a text body, or 500 with `{error, details}`. */
  datatype Reply = BadRequest(error: string) | Sent(body: string) | ServerError(error: string, details: string)

  /** A handled request: the answer, the completion calls made and the delays slept. */
  datatype Exchange = Exchange(reply: Reply, calls: nat, sleeps: seq<int>)

  /** The TypeError `response.choices[0].message` throws when `choices` is empty. */
  const MissingChoiceMessage := "Cannot read properties of undefined (reading 'message')"

  const JobAndSkillsRequired := "Job title and skills are required"
  const JobRequired := "Job title is required"

  /** The handler's answer once the retry wrapper has settled. */
  function Respond(o: Outcome<Completion>, failure: string): Reply {
    match o
    case Returned(choices) =>
      if |choices| == 0 then ServerError(failure, MissingChoiceMessage) else Sent(choices[0])
    case Rethrown(e) => ServerError(failure, e.message)
    case MaxRetriesReached => ServerError(failure, MaxRetriesMessage)
  }

  /** Carry out a plan: a rejection answers at once; a request goes through the retry
      wrapper, whose failures become a 500 headed by `failure`. */
  function Serve(plan: Plan, failure: string, provider: Provider): Exchange {
    match plan
    case Reject(e) => Exchange(BadRequest(e), 0, [])
    case Ask(req) =>
      var run := Expected(provider(req), DefaultRetries, DefaultDelay);
      Exchange(Respond(run.outcome, failure), run.calls, run.sleeps)
  }

  // ---------------------------------------------------------------------------
  // Validation predicates and prompt templates

  /** `!job || !skills` rejects; used by /email, /interview and /mock-interview. */
  predicate HasJobAndSkills(job: Value, skills: Value) {
    Truthy(job) && Truthy(skills)
  }

  /** `!job` rejects; used by /career-coach. */
  predicate HasJob(job: Value) {
    Truthy(job)
  }

  /** The email template literal, over the interpolated texts. */
  function EmailTemplate(job: string, company: string, skills: string, experience: string): string {
    Join(["Write a concise, professional outreach email for a ", job,
          " position at ", company,
          ", highlighting skills: ", skills,
          ", and mentioning ", experience,
          " years of experience."])
  }

  function EmailPrompt(job: Value, skills: Value, company: Value, experience: Value): string {
    EmailTemplate(Text(job), Text(Or(company, "a company")), Text(skills), Text(Or(experience, "several")))
  }

  function InterviewTemplate(job: string, skills: string): string {
    Join(["Generate 3 common interview questions for a ", job,
          " role, tailored to skills: ", skills, "."])
  }

  function InterviewPrompt(job: Value, skills: Value): string {
    InterviewTemplate(Text(job), Text(skills))
  }

  function MockInterviewTemplate(job: string, skills: string): string {
    Join(["Act as an interviewer for a ", job,
          " role. Ask a question tailored to skills: ", skills,
          ", and provide feedback on a sample answer."])
  }

  function MockInterviewPrompt(job: Value, skills: Value): string {
    MockInterviewTemplate(Text(job), Text(skills))
  }

  function CareerCoachTemplate(experience: string, job: string): string {
    Join(["Provide a step-by-step career plan for someone with ", experience,
          " years of experience who wants to become a ", job,
          ". Include education, skills to develop, networking tips, and job application strategies."])
  }

  function CareerCoachPrompt(job: Value, experience: Value): string {
    CareerCoachTemplate(Text(Or(experience, "no")), Text(job))
  }

  // ---------------------------------------------------------------------------
  // Handlers

  /** /email's required-field check and its completion request. */
  function EmailPlan(job: Value, skills: Value, company: Value, experience: Value): Plan {
    if !HasJobAndSkills(job, skills) then Reject(JobAndSkillsRequired)
    else Ask(ChatRequest(ChatModel, EmailPrompt(job, skills, company, experience), 150))
  }

  /** GET /email?job&skills&company&experience */
  function Email(job: Value, skills: Value, company: Value, experience: Value, provider: Provider): Exchange {
    Serve(EmailPlan(job, skills, company, experience), "Failed to generate email", provider)
  }

  /** /interview's required-field check and its completion request. */
  function InterviewPlan(job: Value, skills: Value): Plan {
    if !HasJobAndSkills(job, skills) then Reject(JobAndSkillsRequired)
    else Ask(ChatRequest(ChatModel, InterviewPrompt(job, skills), 100))
  }

  /** GET /interview?job&skills */
  function Interview(job: Value, skills: Value, provider: Provider): Exchange {
    Serve(InterviewPlan(job, skills), "Failed to generate questions", provider)
  }

  /** /mock-interview's required-field check and its completion request. */
  function MockInterviewPlan(job: Value, skills: Value): Plan {
    if !HasJobAndSkills(job, skills) then Reject(JobAndSkillsRequired)
    else Ask(ChatRequest(ChatModel, MockInterviewPrompt(job, skills), 200))
  }

  /** POST /mock-interview with body {job, skills} */
  function MockInterview(job: Value, skills: Value, provider: Provider): Exchange {
    Serve(MockInterviewPlan(job, skills), "Failed to generate mock interview", provider)
  }

  /** /career-coach's required-field check and its completion request. */
  function CareerCoachPlan(job: Value, experience: Value): Plan {
    if !HasJob(job) then Reject(JobRequired)
    else Ask(ChatRequest(ChatModel, CareerCoachPrompt(job, experience), 300))
  }

  /** GET /career-coach?job&experience */
  function CareerCoach(job: Value, experience: Value, provider: Provider): Exchange {
    Serve(CareerCoachPlan(job, experience), "Failed to generate career plan", provider)
  }

  // ---------------------------------------------------------------------------
  // Properties

  /** A rejected plan answers 400 without a single completion call. A request is made at
      least once and at most three times, sleeping 1000, 2000, 4000 ms in turn (7 s at most);
      it answers 200 exactly when the wrapper returned a completion with a first choice,
      and every other end is a 500 under the handler's own error heading, whose `details` is
      the message of what was thrown: the provider's error, 'Max retries reached', or the
      TypeError of reading the first of no choices. */
  lemma ServeContract(plan: Plan, failure: string, provider: Provider)
    ensures plan.Reject? ==> Serve(plan, failure, provider) == Exchange(BadRequest(plan.error), 0, [])
    ensures var x := Serve(plan, failure, provider);
      (plan.Ask? ==>
            var run := Expected(provider(plan.request), DefaultRetries, DefaultDelay);
            && 1 <= x.calls <= 3
            && |x.sleeps| <= 3
            && x.sleeps == [1000, 2000, 4000][..|x.sleeps|]
            && Total(x.sleeps) <= 7000
            && (x.reply.Sent? <==> run.outcome.Returned? && |run.outcome.value| > 0)
            && (x.reply.Sent? ==> x.reply.body == run.outcome.value[0])
            && (!x.reply.Sent? ==> x.reply.ServerError? && x.reply.error == failure)
            && (run.outcome.Rethrown? ==> x.reply.details == run.outcome.error.message)
            && (run.outcome.MaxRetriesReached? ==> x.reply.details == MaxRetriesMessage)
            && (run.outcome.Returned? && |run.outcome.value| == 0 ==> x.reply.details == MissingChoiceMessage))
  {
    if plan.Ask? {
      var fn := provider(plan.request);
      var run := Expected(fn, DefaultRetries, DefaultDelay);
      ShapeOfRun(fn, DefaultRetries, DefaultDelay);
      var n := |run.sleeps|;
      assert Pow2(0) == 1 && Pow2(1) == 2 && Pow2(2) == 4;
      assert run.sleeps == [1000, 2000, 4000][..n];
      TotalSchedule(DefaultDelay, n);
      assert Pow2(3) == 8;
    }
  }

  /** /email answers 400 exactly when `job` or `skills` is falsy, and then makes no
      completion call; otherwise it asks for its prompt with max_tokens 150. */
  lemma EmailValidation(job: Value, skills: Value, company: Value, experience: Value, provider: Provider)
    ensures var x := Email(job, skills, company, experience, provider);
      && (x.reply.BadRequest? <==> !Truthy(job) || !Truthy(skills))
      && (x.calls == 0 <==> !Truthy(job) || !Truthy(skills))
      && (x.reply.BadRequest? ==> x.reply.error == JobAndSkillsRequired)
    ensures Truthy(job) && Truthy(skills) ==>
      EmailPlan(job, skills, company, experience)
        == Ask(ChatRequest(ChatModel, EmailPrompt(job, skills, company, experience), 150))
  {
    ServeContract(EmailPlan(job, skills, company, experience), "Failed to generate email", provider);
  }

  /** /interview answers 400 exactly when `job` or `skills` is falsy, with no call;
      otherwise it asks for its prompt with max_tokens 100. */
  lemma InterviewValidation(job: Value, skills: Value, provider: Provider)
    ensures var x := Interview(job, skills, provider);
      && (x.reply.BadRequest? <==> !Truthy(job) || !Truthy(skills))
      && (x.calls == 0 <==> !Truthy(job) || !Truthy(skills))
      && (x.reply.BadRequest? ==> x.reply.error == JobAndSkillsRequired)
    ensures Truthy(job) && Truthy(skills) ==>
      InterviewPlan(job, skills) == Ask(ChatRequest(ChatModel, InterviewPrompt(job, skills), 100))
  {
    ServeContract(InterviewPlan(job, skills), "Failed to generate questions", provider);
  }

  /** /mock-interview answers 400 exactly when `job` or `skills` of the body is falsy
      (an empty body included), with no call; otherwise it asks for its prompt with
      max_tokens 200. */
  lemma MockInterviewValidation(job: Value, skills: Value, provider: Provider)
    ensures var x := MockInterview(job, skills, provider);
      && (x.reply.BadRequest? <==> !Truthy(job) || !Truthy(skills))
      && (x.calls == 0 <==> !Truthy(job) || !Truthy(skills))
      && (x.reply.BadRequest? ==> x.reply.error == JobAndSkillsRequired)
    ensures Truthy(job) && Truthy(skills) ==>
      MockInterviewPlan(job, skills) == Ask(ChatRequest(ChatModel, MockInterviewPrompt(job, skills), 200))
  {
    ServeContract(MockInterviewPlan(job, skills), "Failed to generate mock interview", provider);
  }

  /** /career-coach answers 400 exactly when `job` is falsy, with no call; otherwise it
      asks for its prompt with max_tokens 300. */
  lemma CareerCoachValidation(job: Value, experience: Value, provider: Provider)
    ensures var x := CareerCoach(job, experience, provider);
      && (x.reply.BadRequest? <==> !Truthy(job))
      && (x.calls == 0 <==> !Truthy(job))
      && (x.reply.BadRequest? ==> x.reply.error == JobRequired)
    ensures Truthy(job) ==>
      CareerCoachPlan(job, experience) == Ask(ChatRequest(ChatModel, CareerCoachPrompt(job, experience), 300))
  {
    ServeContract(CareerCoachPlan(job, experience), "Failed to generate career plan", provider);
  }

  lemma EmailTemplateMentions(job: string, company: string, skills: string, experience: string)
    ensures Infix(job, EmailTemplate(job, company, skills, experience))
    ensures Infix(company, EmailTemplate(job, company, skills, experience))
    ensures Infix(skills, EmailTemplate(job, company, skills, experience))
    ensures Infix(experience, EmailTemplate(job, company, skills, experience))
  {
    var parts := ["Write a concise, professional outreach email for a ", job,
                  " position at ", company,
                  ", highlighting skills: ", skills,
                  ", and mentioning ", experience,
                  " years of experience."];
    InfixOfJoin(parts, 1);
    InfixOfJoin(parts, 3);
    InfixOfJoin(parts, 5);
    InfixOfJoin(parts, 7);
  }

  /** The email prompt names the job, the skills, the company (or 'a company') and the
      years of experience (or 'several'). */
  lemma EmailPromptMentions(job: Value, skills: Value, company: Value, experience: Value)
    ensures Infix(Text(job), EmailPrompt(job, skills, company, experience))
    ensures Infix(Text(skills), EmailPrompt(job, skills, company, experience))
    ensures Infix(Text(Or(company, "a company")), EmailPrompt(job, skills, company, experience))
    ensures Infix(Text(Or(experience, "several")), EmailPrompt(job, skills, company, experience))
  {
    EmailTemplateMentions(Text(job), Text(Or(company, "a company")), Text(skills), Text(Or(experience, "several")));
  }

  /** A falsy company reads 'a company' and a falsy experience 'several' in the email
      prompt, exactly as if those words had been given; truthy ones appear as given. */
  lemma EmailPromptDefaults(job: Value, skills: Value, company: Value, experience: Value)
    ensures var p := EmailPrompt(job, skills, company, experience);
      && (Truthy(company) ==> Infix(Text(company), p))
      && (Truthy(experience) ==> Infix(Text(experience), p))
      && (!Truthy(company) ==> Infix("a company", p))
      && (!Truthy(experience) ==> Infix("several", p))
      && (!Truthy(company) ==> p == EmailPrompt(job, skills, Str("a company"), experience))
      && (!Truthy(experience) ==> p == EmailPrompt(job, skills, company, Str("several")))
  {
    EmailPromptMentions(job, skills, company, experience);
    assert Or(Str("a company"), "a company") == Str("a company");
    assert Or(Str("several"), "several") == Str("several");
  }

  /** The interview and mock-interview prompts name the job and the skills. */
  lemma InterviewPromptsMention(job: Value, skills: Value)
    ensures Infix(Text(job), InterviewPrompt(job, skills))
    ensures Infix(Text(skills), InterviewPrompt(job, skills))
    ensures Infix(Text(job), MockInterviewPrompt(job, skills))
    ensures Infix(Text(skills), MockInterviewPrompt(job, skills))
  {
    var j, k := Text(job), Text(skills);
    var iparts := ["Generate 3 common interview questions for a ", j,
                   " role, tailored to skills: ", k, "."];
    assert InterviewTemplate(j, k) == Join(iparts);
    InfixOfJoin(iparts, 1);
    InfixOfJoin(iparts, 3);
    var mparts := ["Act as an interviewer for a ", j,
                   " role. Ask a question tailored to skills: ", k,
                   ", and provide feedback on a sample answer."];
    assert MockInterviewTemplate(j, k) == Join(mparts);
    InfixOfJoin(mparts, 1);
    InfixOfJoin(mparts, 3);
  }

  lemma CareerCoachTemplateMentions(experience: string, job: string)
    ensures Infix(experience, CareerCoachTemplate(experience, job))
    ensures Infix(job, CareerCoachTemplate(experience, job))
  {
    var parts := ["Provide a step-by-step career plan for someone with ", experience,
                  " years of experience who wants to become a ", job,
                  ". Include education, skills to develop, networking tips, and job application strategies."];
    InfixOfJoin(parts, 1);
    InfixOfJoin(parts, 3);
  }

  /** The career-coach prompt names the job; a falsy experience reads 'no', exactly as if
      that word had been given. */
  lemma CareerCoachPromptDefaults(job: Value, experience: Value)
    ensures Infix(Text(job), CareerCoachPrompt(job, experience))
    ensures Infix(Text(Or(experience, "no")), CareerCoachPrompt(job, experience))
    ensures !Truthy(experience) ==> Infix("no", CareerCoachPrompt(job, experience))
    ensures !Truthy(experience) ==> CareerCoachPrompt(job, experience) == CareerCoachPrompt(job, Str("no"))
  {
    CareerCoachTemplateMentions(Text(Or(experience, "no")), Text(job));
    assert Or(Str("no"), "no") == Str("no");
  }
}
