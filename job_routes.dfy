/** The job-listing routes of routes/jobs.js: `GET /` answers a fixed pair of listings, and
    `GET /scrape?skills=` asks the job-search provider for listings matching the skills and
    reshapes its records into at most five {title, company, description} listings.

    The provider is modelled by what fetching the search for a given term yields: a failed
    request, a response that is not ok, or a parsed JSON body with its `results`. */
module JobRoutes {
  import opened JsValues

  /** A listing as the routes answer it. */
  datatype Job = Job(title: Value, company: Value, description: string)

  /** The fixed listings `GET /` answers. */
  const JobsData: seq<Job> := [
    Job(Str("Investment Banker"), Str("Goldman Sachs"),
        "Analyze financial data and manage client portfolios."),
    Job(Str("Financial Analyst"), Str("JPMorgan Chase"),
        "Prepare reports and forecasts for investment decisions.")
  ]

  /** GET / : the fixed listings, as they are. */
  function ListJobs(): (r: seq<Job>)
    ensures |r| == 2
    ensures r[0].title == Str("Investment Banker") && r[0].company == Str("Goldman Sachs")
    ensures r[1].title == Str("Financial Analyst") && r[1].company == Str("JPMorgan Chase")
    ensures r[0].description == "Analyze financial data and manage client portfolios."
    ensures r[1].description == "Prepare reports and forecasts for investment decisions."
  {
    JobsData
  }

  /** One record of the provider's `results`, with the fields the handler reads: its
      `title`, the `display_name` of its `company` object (None: no company object) and
      its `description` (None: no description). */
  datatype RawJob = RawJob(title: Value, company: Option<Value>, description: Option<string>)

  /** What fetching one search yields. */
  datatype Fetched =
    | RequestFailed(message: string)          // fetch or response.json() rejected
    | NotOk(statusText: string)               // response.ok is false
    | Delivered(results: Option<seq<RawJob>>) // the body, with or without `results`

  /** The HTTP answer of GET /scrape. */
  datatype ScrapeReply =
    | BadRequest(error: string)
    | NotFound(error: string)
    | UpstreamError(error: string, details: string)
    | Found(jobs: seq<Job>)

  /** A value or the message of the exception thrown while computing it. */
  datatype Result<T> = Success(value: T) | Thrown(message: string)

  const DefaultSkills := "developer"
  const MaxSkillsLength := 100
  const DescriptionLength := 200
  const PageSize := 5

  const InvalidSkills := "Invalid or missing skills parameter"
  const NoJobs := "No jobs found for the given skills"
  const FetchFailed := "Failed to fetch jobs"
  const MissingResults := "Cannot read properties of undefined (reading 'map')"
  const MissingCompany := "Cannot read properties of undefined (reading 'display_name')"
  const MissingDescription := "Cannot read properties of undefined (reading 'slice')"

  function Min(a: int, b: int): int {
    if a <= b then a else b
  }

  /** `req.query.skills || 'developer'` */
  function EffectiveSkills(query: Value): Value {
    Or(query, DefaultSkills)
  }

  /** The negation of the 400 test `!skills || typeof skills !== 'string' || skills.length > 100`. */
  predicate ValidSkills(skills: Value) {
    Truthy(skills) && skills.Str? && |skills.s| <= MaxSkillsLength
  }

  /** `description.slice(0, 200) + '...'` */
  function Summary(description: string): string {
    description[..Min(DescriptionLength, |description|)] + "..."
  }

  /** A record the mapping reads without throwing. */
  predicate WellFormed(r: RawJob) {
    r.company.Some? && r.description.Some?
  }

  /** The message of the TypeError a record that is not well formed throws. */
  function Fault(r: RawJob): string {
    if r.company.None? then MissingCompany else MissingDescription
  }

  /** The arrow function given to `results.map`. */
  function ToJob(r: RawJob): Result<Job> {
    if !WellFormed(r) then Thrown(Fault(r))
    else Success(Job(r.title, r.company.value, Summary(r.description.value)))
  }

  /** `results.map(...)`: records are mapped in order and the first one that throws ends it. */
  function MapJobs(rs: seq<RawJob>): Result<seq<Job>> {
    if rs == [] then Success([])
    else match ToJob(rs[0])
      case Thrown(m) => Thrown(m)
      case Success(j) =>
        match MapJobs(rs[1..])
        case Thrown(m) => Thrown(m)
        case Success(js) => Success([j] + js)
  }

  /** GET /scrape?skills= ; `fetch(term)` is what the search for `term` yields. */
  function Scrape(query: Value, fetch: string -> Fetched): ScrapeReply {
    var skills := EffectiveSkills(query);
    if !ValidSkills(skills) then BadRequest(InvalidSkills)
    else match fetch(skills.s)
      case RequestFailed(m) => UpstreamError(FetchFailed, m)
      case NotOk(t) => UpstreamError(FetchFailed, "Adzuna API request failed: " + t)
      case Delivered(None) => UpstreamError(FetchFailed, MissingResults)
      case Delivered(Some(raws)) =>
        match MapJobs(raws)
        case Thrown(m) => UpstreamError(FetchFailed, m)
        case Success(jobs) =>
          if |jobs| == 0 then NotFound(NoJobs) else Found(jobs[..Min(PageSize, |jobs|)])
  }

  // ---------------------------------------------------------------------------
  // Properties

  /** A summary is the first 200 characters of the description followed by '...': at most
      203 characters, always ending in '...', and the whole description when it is short. */
  lemma SummaryShape(description: string)
    ensures var s := Summary(description);
      && |s| <= DescriptionLength + 3
      && |s| >= 3 && s[|s| - 3..] == "..."
      && s[..|s| - 3] <= description
      && (|description| <= DescriptionLength ==> s == description + "...")
      && (|description| >= DescriptionLength ==> |s| == DescriptionLength + 3)
  {
  }

  /** Mapping succeeds exactly when every record is well formed; it then keeps the number
      and the order of the records, each listing taking its title, its company's display
      name and the summary of its description. Otherwise the error is that of the first
      record that is not well formed. */
  lemma {:induction false} MapJobsContract(rs: seq<RawJob>)
    ensures MapJobs(rs).Success? <==> forall i :: 0 <= i < |rs| ==> WellFormed(rs[i])
    ensures MapJobs(rs).Success? ==>
      var js := MapJobs(rs).value;
      && |js| == |rs|
      && forall i :: 0 <= i < |rs| ==>
           js[i] == Job(rs[i].title, rs[i].company.value, Summary(rs[i].description.value))
    ensures MapJobs(rs).Thrown? ==>
      exists k :: 0 <= k < |rs| && !WellFormed(rs[k]) && MapJobs(rs).message == Fault(rs[k])
        && forall i :: 0 <= i < k ==> WellFormed(rs[i])
  {
    if rs != [] {
      MapJobsContract(rs[1..]);
      if WellFormed(rs[0]) && MapJobs(rs[1..]).Thrown? {
        var k :| 0 <= k < |rs[1..]| && !WellFormed(rs[1..][k]) && MapJobs(rs[1..]).message == Fault(rs[1..][k])
          && forall i :: 0 <= i < k ==> WellFormed(rs[1..][i]);
        assert !WellFormed(rs[k + 1]) && forall i :: 0 <= i < k + 1 ==> WellFormed(rs[i]);
      }
      if !WellFormed(rs[0]) {
        assert 0 <= 0 < |rs| && !WellFormed(rs[0]);
      }
    }
  }

  /** A missing or empty `skills` is never rejected: it is searched as 'developer'. */
  lemma SkillsDefault(query: Value, fetch: string -> Fetched)
    requires !Truthy(query)
    ensures Scrape(query, fetch) == Scrape(Str(DefaultSkills), fetch)
    ensures !Scrape(query, fetch).BadRequest?
  {
  }

  /** The answer is 400 exactly when `skills` is given (truthy) but is not a string or is
      longer than 100 characters, whatever the provider would have answered. */
  lemma SkillsValidation(query: Value, fetch: string -> Fetched, other: string -> Fetched)
    ensures Scrape(query, fetch).BadRequest?
        <==> Truthy(query) && (!query.Str? || |query.s| > MaxSkillsLength)
    ensures Scrape(query, fetch).BadRequest? ==>
      Scrape(query, fetch) == BadRequest(InvalidSkills) == Scrape(query, other)
  {
  }

  /** A successful answer holds the first min(5, n) listings mapped from the n records the
      provider returned for the search term, in their order; there is at least one. */
  lemma ScrapeFound(query: Value, fetch: string -> Fetched)
    requires Scrape(query, fetch).Found?
    ensures var term := EffectiveSkills(query);
      && ValidSkills(term)
      && fetch(term.s).Delivered? && fetch(term.s).results.Some?
      && var raws := fetch(term.s).results.value;
         && MapJobs(raws).Success?
         && |raws| >= 1
         && |MapJobs(raws).value| == |raws|
         && (forall i :: 0 <= i < |raws| ==> WellFormed(raws[i]))
         && Scrape(query, fetch).jobs == MapJobs(raws).value[..Min(PageSize, |raws|)]
         && |Scrape(query, fetch).jobs| == Min(PageSize, |raws|)
         && forall i :: 0 <= i < |Scrape(query, fetch).jobs| ==>
              Scrape(query, fetch).jobs[i]
                == Job(raws[i].title, raws[i].company.value, Summary(raws[i].description.value))
  {
    var raws := fetch(EffectiveSkills(query).s).results.value;
    MapJobsContract(raws);
  }

  /** Valid skills for which the provider returns n >= 1 records that all map cleanly are
      answered 200 with the first min(5, n) of their listings, in order. */
  lemma ScrapeAnswersFound(query: Value, fetch: string -> Fetched, raws: seq<RawJob>)
    requires ValidSkills(EffectiveSkills(query))
    requires fetch(EffectiveSkills(query).s) == Delivered(Some(raws))
    requires |raws| >= 1 && forall i :: 0 <= i < |raws| ==> WellFormed(raws[i])
    ensures Scrape(query, fetch).Found?
    ensures |Scrape(query, fetch).jobs| == Min(PageSize, |raws|)
    ensures forall i :: 0 <= i < Min(PageSize, |raws|) ==>
      && WellFormed(raws[i])
      && Scrape(query, fetch).jobs[i]
           == Job(raws[i].title, raws[i].company.value, Summary(raws[i].description.value))
  {
    MapJobsContract(raws);
  }

  /** Every listing of a successful answer has a description of at most 203 characters
      ending in '...'. */
  lemma FoundDescriptionsBounded(query: Value, fetch: string -> Fetched)
    requires Scrape(query, fetch).Found?
    ensures forall j :: j in Scrape(query, fetch).jobs ==>
      3 <= |j.description| <= DescriptionLength + 3 && j.description[|j.description| - 3..] == "..."
  {
    ScrapeFound(query, fetch);
    var raws := fetch(EffectiveSkills(query).s).results.value;
    var js := Scrape(query, fetch).jobs;
    forall j | j in js
      ensures 3 <= |j.description| <= DescriptionLength + 3 && j.description[|j.description| - 3..] == "..."
    {
      var i :| 0 <= i < |js| && js[i] == j;
      SummaryShape(raws[i].description.value);
    }
  }

  /** The answer is 404 exactly when valid skills were searched and the provider returned
      an empty `results` list: an empty list is never answered as an empty 200. */
  lemma ScrapeNotFound(query: Value, fetch: string -> Fetched)
    ensures Scrape(query, fetch).NotFound?
        <==> ValidSkills(EffectiveSkills(query))
             && fetch(EffectiveSkills(query).s) == Delivered(Some([]))
  {
    var term := EffectiveSkills(query);
    if ValidSkills(term) && fetch(term.s).Delivered? && fetch(term.s).results.Some? {
      MapJobsContract(fetch(term.s).results.value);
    }
  }

  /** A provider failure is a 500 whose `details` carry the failure's message, and a 500
      comes from nothing but such a failure. */
  lemma ScrapeUpstreamFailure(query: Value, fetch: string -> Fetched)
    requires ValidSkills(EffectiveSkills(query))
    ensures var f := fetch(EffectiveSkills(query).s);
      && (f.RequestFailed? ==> Scrape(query, fetch) == UpstreamError(FetchFailed, f.message))
      && (f.NotOk? ==>
            Scrape(query, fetch) == UpstreamError(FetchFailed, "Adzuna API request failed: " + f.statusText))
      && (f.Delivered? && f.results.None? ==> Scrape(query, fetch) == UpstreamError(FetchFailed, MissingResults))
      && (f.Delivered? && f.results.Some? && MapJobs(f.results.value).Thrown? ==>
            Scrape(query, fetch) == UpstreamError(FetchFailed, MapJobs(f.results.value).message))
    ensures var f := fetch(EffectiveSkills(query).s);
      Scrape(query, fetch).UpstreamError? ==>
        f.RequestFailed? || f.NotOk? || (f.Delivered? && (f.results.None? || MapJobs(f.results.value).Thrown?))
  {
  }
}
