# careerpulse-backend: retry policy, request validation and job reshaping in Dafny

This project models the logic of the career-coaching REST gateway (routes/openai.js and
routes/jobs.js) and proves properties of it:

- `retryWithBackoff`, the wrapper around every language-model call. It invokes a unit of
  work; on a rate-limit failure (`error.response.status === 429`) it sleeps, doubles the
  delay and tries again, for at most `maxRetries` invocations; any other failure is
  rethrown at once; when the budget is spent it throws `'Max retries reached'`.
  Module `Retry` (retry.dfy) holds this loop as a method with invariants. `Retry.Expected`
  is the closed-form reference behaviour the method is proved equal to: the first
  invocation that is not rate-limited decides the outcome. The lemmas state the promised
  properties about that reference: bounded invocations, the geometric delay schedule,
  the total delay, errors rethrown unchanged, and exhaustion.
- The four text-generation handlers (`/email`, `/interview`, `/mock-interview`,
  `/career-coach`). Module `OpenAiRoutes` (openai_routes.dfy) gives each handler's
  validation predicate and prompt template as pure functions. A handler either answers 400
  without calling the provider, or makes one retried completion call with its
  `max_tokens`. It answers the first choice's text, or a 500 whose `details` is the error
  message.
- The job routes. Module `JobRoutes` (job_routes.dfy) covers these:
  - `GET /` answers the two fixed listings.
  - `GET /scrape` defaults `skills` to `'developer'` and checks it.
  - It maps each provider record to `{title, company, description}`, where the
    description is cut to 200 characters plus `'...'`.
  - It answers 404 when there are no records, the first five listings otherwise, and
    500 on provider failures.
- Module `JsValues` (js_values.dfy) gives the JavaScript semantics these handlers rely on:
  - truthiness (`!x`);
  - `x || 'default'`;
  - `String(x)` as a template literal interpolates it;
  - template literals as a sequence of pieces.

External effects are parameters:
- The unit of work is a function `fn: nat -> Attempt<T>`: the outcome of its i-th
  invocation.
- The language-model provider maps a request to such a function.
- The job provider maps a search term to what fetching that search yields.
- Sleeping is recorded as the list of delays slept, in order. No real time is modelled.

Behaviour of the code worth knowing, which the model follows as written:
- `retryWithBackoff(fn, maxRetries)` invokes `fn` at most `maxRetries` times in all, and
  zero times when `maxRetries = 0`; it then throws 'Max retries reached' at once.
- It sleeps after every rate-limited invocation, including the last one, right before
  throwing 'Max retries reached'.
- `GET /scrape?skills=` (empty) searches 'developer' (`'' || 'developer'`) and is never
  rejected.
- Validation failures answer a fixed message.

## Model

| member | source | states |
|---|---|---|
| `Retry.RetryWithBackoff` | routes/openai.js:10-29 | The loop over `retryCount` and `delay` returns, rethrows or gives up exactly as the reference behaviour `Expected` does. The same holds for how many times it invokes the unit of work and which delays it sleeps. |
| `Retry.FirstSettled` | routes/openai.js:14-25 | It finds the first invocation, within the bound, that is not rate-limited. Every invocation before it is rate-limited; `bound` is returned when all are. |
| `Retry.ShapeOfRun` | routes/openai.js:12-22 | Calls never exceed `maxRetries` (0 when negative). The i-th sleep lasts `initialDelay * 2^i`, so each sleep doubles the previous one. There is one sleep per invocation, except after the invocation that ends the call. |
| `Retry.OutcomeComesFromLastCall` | routes/openai.js:16-25 | Only rate-limited invocations are retried. A returned value is the last invocation's value. A rethrown error is the last invocation's error, unchanged, and is not a rate limit. |
| `Retry.FirstCallSucceeds` | routes/openai.js:14-16 | When the first invocation succeeds, its value is returned after exactly one invocation and no sleep. |
| `Retry.OtherErrorRethrown` | routes/openai.js:18-25 | Say the first k invocations are rate-limited and invocation k+1 fails otherwise, still inside the budget. That error is rethrown unchanged after k+1 invocations and k sleeps. Nothing is invoked after it. |
| `Retry.MissingResponseIsFatal` | routes/openai.js:18 | An error with no `response` is not a rate limit. On the first call it is rethrown at once, after one invocation and no sleep. |
| `Retry.ExhaustedIffAllRateLimited` | routes/openai.js:14-28 | 'Max retries reached' is thrown exactly when all `maxRetries` allowed invocations are rate-limited (both directions). All of them were then made, each followed by its sleep. |
| `Retry.NoBudgetNoCall` | routes/openai.js:14-28 | When `maxRetries <= 0`, the unit of work is never invoked, nothing is slept, and 'Max retries reached' is thrown. |
| `Retry.TotalSchedule` | routes/openai.js:20-22 | The first n delays of the doubling schedule add up to `initialDelay * (2^n - 1)`. |
| `Retry.SucceedsAfterRetries` | routes/openai.js:14-22 | After k rate-limited invocations (k < `maxRetries`), a successful one returns its value. That takes k+1 invocations and a total delay of `initialDelay * (2^k - 1)`. |
| `OpenAiRoutes.ServeContract` | routes/openai.js:39-52 | A rejected request answers 400 with no completion call. An accepted one makes 1 to 3 calls, sleeping 1000, 2000 and 4000 ms in turn, at most 7000 ms in all. It answers 200 with the first choice exactly when the wrapper returned a completion that has one. Any other outcome is a 500 under the handler's heading. Its `details` is the rethrown error's message, 'Max retries reached' when the budget is spent, or the TypeError of reading the first of no choices. |
| `OpenAiRoutes.EmailValidation` | routes/openai.js:33-45 | /email answers 400 'Job title and skills are required' exactly when `job` or `skills` is falsy. It makes a completion call exactly when both are truthy, asking for the email prompt with model gpt-3.5-turbo and max_tokens 150. |
| `OpenAiRoutes.InterviewValidation` | routes/openai.js:57-69 | /interview answers 400 exactly when `job` or `skills` is falsy, and then makes no completion call. Otherwise it asks for the interview prompt with max_tokens 100. |
| `OpenAiRoutes.MockInterviewValidation` | routes/openai.js:81-93 | /mock-interview answers 400 exactly when the body's `job` or `skills` is falsy, and then makes no completion call. Otherwise it asks for the mock-interview prompt with max_tokens 200. |
| `OpenAiRoutes.CareerCoachValidation` | routes/openai.js:105-117 | /career-coach answers 400 'Job title is required' exactly when `job` is falsy, and then makes no completion call. Otherwise it asks for the career-coach prompt with max_tokens 300. |
| `OpenAiRoutes.EmailTemplateMentions` | routes/openai.js:37 | The email template's text contains each of the four interpolated texts. |
| `OpenAiRoutes.EmailPromptMentions` | routes/openai.js:37 | The email prompt contains the job, the skills, the company (or its default) and the experience (or its default). |
| `OpenAiRoutes.EmailPromptDefaults` | routes/openai.js:37 | In the email prompt, a falsy company reads 'a company' and a falsy experience reads 'several', exactly as if those words had been given. Truthy values appear as given. |
| `OpenAiRoutes.InterviewPromptsMention` | routes/openai.js:61-85 | The interview and mock-interview prompts contain the job and the skills. |
| `OpenAiRoutes.CareerCoachTemplateMentions` | routes/openai.js:109 | The career-coach template's text contains both interpolated texts. |
| `OpenAiRoutes.CareerCoachPromptDefaults` | routes/openai.js:109 | The career-coach prompt contains the job. A falsy experience reads 'no', exactly as if 'no' had been given. |
| `JsValues.InfixOfJoin` | routes/openai.js:37 | Every piece of a template literal, interpolated values included, occurs in the literal's text. |
| `JobRoutes.ListJobs` | routes/jobs.js:7-15 | `GET /` answers the two fixed listings: their titles, companies and descriptions. |
| `JobRoutes.SummaryShape` | routes/jobs.js:35 | A description becomes its first 200 characters plus '...'. That is at most 203 characters, always ends in '...', and begins with a prefix of the original. It is the whole description when that has at most 200 characters. |
| `JobRoutes.MapJobsContract` | routes/jobs.js:32-36 | Mapping succeeds exactly when every record has a company and a description (both directions). It keeps the number and order of the records. Each listing takes `title`, `company.display_name` and the summary of `description`. Otherwise the error is that of the first bad record. |
| `JobRoutes.SkillsDefault` | routes/jobs.js:19 | A missing or empty `skills` is searched as 'developer' and is never rejected. |
| `JobRoutes.SkillsValidation` | routes/jobs.js:19-22 | The answer is 400 exactly when `skills` is truthy but is not a string, or is longer than 100 characters (length 100 is accepted). The 400 does not depend on the provider. |
| `JobRoutes.ScrapeFound` | routes/jobs.js:32-42 | A 200 answer holds exactly the first min(5, n) listings mapped from the n records returned for the search term, in order. There is at least one. |
| `JobRoutes.ScrapeAnswersFound` | routes/jobs.js:32-42 | Valid skills whose search returns n >= 1 records, all with a company and a description, are answered 200. The answer holds the first min(5, n) listings mapped from those records, in order. |
| `JobRoutes.FoundDescriptionsBounded` | routes/jobs.js:35-42 | Every listing in a 200 answer has a description of 3 to 203 characters that ends in '...'. |
| `JobRoutes.ScrapeNotFound` | routes/jobs.js:38-40 | The answer is 404 exactly when valid skills were searched and the provider returned an empty `results` list. An empty result is never an empty 200. |
| `JobRoutes.ScrapeUpstreamFailure` | routes/jobs.js:26-48 | A failed request, a response that is not ok, a body without `results`, or a record that throws while mapped each answer 500 'Failed to fetch jobs'. Its `details` is the failure's message; for a response that is not ok, that is 'Adzuna API request failed: ' plus its status text. A 500 arises from nothing but these failures. |

## Left out

- index.js: middleware configuration, the rate limiter, the HTML landing page, the
  start-up environment check, the 404 fallback and `listen`. These are framework set-up
  and I/O.
- routes/stripe.js: a call into a payment SDK whose only logic is a truthiness check on
  `userId`. routes/stripe.js is not part of this model.
- Real time and scheduling: `setTimeout` and promises become the recorded list of delays.
  Concurrency between requests is not modelled.
- The search URL (`encodeURIComponent`, credentials from the environment): the job
  provider is given the effective search term instead.
- `console` logging.
- Floating-point numbers. `delay *= 2` is exact integer doubling here, with no overflow
  to `Infinity` and no clamping of very long `setTimeout` delays. Numeric query or body
  values are integers.
- String lengths and `slice` count characters. JavaScript counts UTF-16 code units, so the
  two agree only for text without characters outside the Basic Multilingual Plane.
- Provider payload shapes beyond those the handlers read. A completion is its list of
  choice texts, so a missing `choices` field or a null `content` is not modelled.
- Job-provider payloads that `Fetched` and `RawJob` cannot represent. Each answers 500
  'Failed to fetch jobs' with a TypeError message the model does not produce:
  - a JSON body of `null` (reading `results` of null);
  - a `results` that is null, or not an array;
  - a record that is `null` (reading `title` of null);
  - a record whose `company` is null;
  - a record whose `description` is null, or a non-string without `slice`, such as a
    number or an object.
- A `description` that is an array: `slice(0, 200)` cuts the array and `+ '...'` turns it
  into text such as "a,b...", with no error. `RawJob` holds descriptions as strings only.
- MockInterviewValidation: a JSON body's `job` or `skills` that is an object whose string
  conversion throws, such as `{"toString": 1}` or an array holding one. The template
  literal then throws inside the `try`, so the source answers 500 'Failed to generate
  mock interview' after no completion call. `Value.Compound` assumes `String(v)` always
  yields a text, so the lemma's "a call is made when both are truthy" does not hold for
  such bodies. Query values (the other three handlers) cannot carry such objects.
- Which errors the language-model SDK throws. The handlers construct the client with
  `new OpenAI({apiKey})` and call `openai.chat.completions.create`. The retry test at
  routes/openai.js:18 reads `error.response.status`. Errors of that SDK generation commonly
  carry the HTTP status as `error.status`, with no `response`. If so, a real rate limit is
  rethrown at once (`Retry.MissingResponseIsFatal`), and the backoff branch never runs.
  The SDK is not part of this model, so the model covers both shapes of error and
  assumes neither.
- A thrown value that is not an `Error` (no `message`) is not modelled.
- Exact V8 TypeError wording: the messages for a missing `results`, `company`,
  `description` or first choice use V8's wording for reading a property of `undefined`.
