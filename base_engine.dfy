/**
 * The job record shared by every engine: its four-state status, the
 * normalised result shape, and the errors the engine interface raises.
 */
module BaseEngine {
  import opened Wrappers
  import opened Json

  /** Status of a scraping job. */
  datatype JobStatus = Pending | Running | Completed | Failed

  /** The enum's string value. */
  function StatusValue(s: JobStatus): string
  {
    match s
    case Pending => "pending"
    case Running => "running"
    case Completed => "completed"
    case Failed => "failed"
  }

  /** `JobStatus(value)`: the member with that value, if any. */
  function StatusFromValue(v: string): (r: Option<JobStatus>)
    ensures r.Some? ==> StatusValue(r.value) == v
  {
    if v == "pending" then Some(Pending)
    else if v == "running" then Some(Running)
    else if v == "completed" then Some(Completed)
    else if v == "failed" then Some(Failed)
    else None
  }

  /** The enum has exactly the four values, each with its own string. */
  lemma StatusValueRoundTrip(s: JobStatus, v: string)
    ensures StatusFromValue(StatusValue(s)) == Some(s)
    ensures StatusFromValue(v).None? <==> v !in {"pending", "running", "completed", "failed"}
  {
  }

  predicate IsTerminal(s: JobStatus) { s == Completed || s == Failed }

  /**
   * The only status changes the engines make: forward from pending, and from
   * running to a terminal state.
   */
  predicate StatusStep(before: JobStatus, after: JobStatus)
  {
    before == after
    || (before == Pending && after != Pending)
    || (before == Running && IsTerminal(after))
  }

  /** Free-form progress bag of an in-flight job. */
  datatype Progress = Progress(snapshotId: Option<Value>, message: Value)

  /** One collected post in the normalised shape; a missing key reads as `Null`. */
  datatype Item = Item(
    text: Value, link: Value, likes: Value, comments: Value, reposts: Value,
    datePosted: Value, views: Value)

  /** The normalised result dictionary of a finished scrape. */
  datatype ScrapeResult =
    | Scraped(
        scrapedAt: int, url: string, platform: string, userId: string,
        totalItems: nat, postLimit: Option<int>, timeLimit: Option<int>,
        selectorUsed: string, items: seq<Item>)
      /** The soft failure `{'error': 'No posts found', ...}` with no items. */
    | NoPostsFound(scrapedAt: int, url: string, platform: string, userId: string)

  /** The `ValueError`s raised by the engine interface and the job manager. */
  datatype EngineError =
    | JobNotFound(jobId: string)
    | NotCompleted(jobId: string, status: JobStatus, progress: Option<Progress>)
    | NoResults(jobId: string)
    | NoEngine(jobId: string)

  /** The mutable part of a job. */
  datatype JobState = JobState(
    status: JobStatus, updatedAt: int, result: Option<ScrapeResult>,
    error: Option<string>, progress: Option<Progress>)

  /** A result only on a completed job and an error only on a failed one. */
  predicate Coherent(st: JobState)
  {
    (st.result.Some? ==> st.status == Completed) && (st.error.Some? ==> st.status == Failed)
  }

  /**
   * What `get_results` makes of a job in the given state: its result when it
   * is completed and has one, otherwise the `ValueError` the interface raises.
   */
  function ResultsOutcome(jobId: string, st: JobState): (r: Result<ScrapeResult, EngineError>)
    ensures r.Success? <==> st.status == Completed && st.result.Some?
    ensures r.Success? ==> r.value == st.result.value
    ensures st.status != Completed ==> r == Failure(NotCompleted(jobId, st.status, st.progress))
    ensures st.status == Completed && st.result.None? ==> r == Failure(NoResults(jobId))
  {
    if st.status != Completed then Failure(NotCompleted(jobId, st.status, st.progress))
    else if st.result.None? then Failure(NoResults(jobId))
    else Success(st.result.value)
  }

  /** One scraping job; engines update its mutable fields in place. */
  class ScrapeJob {
    const jobId: string
    const platform: string
    const url: string
    const userId: string
    const createdAt: int
    var status: JobStatus
    var updatedAt: int
    var result: Option<ScrapeResult>
    var error: Option<string>
    var progress: Option<Progress>

    /** A fresh job: `result`, `error` and `progress` start absent. */
    constructor (jobId: string, status: JobStatus, platform: string, url: string, userId: string, now: int)
      ensures this.jobId == jobId && this.status == status && this.platform == platform
      ensures this.url == url && this.userId == userId
      ensures createdAt == now && updatedAt == now
      ensures result == None && error == None && progress == None
    {
      this.jobId := jobId;
      this.status := status;
      this.platform := platform;
      this.url := url;
      this.userId := userId;
      createdAt := now;
      updatedAt := now;
      result := None;
      error := None;
      progress := None;
    }

    function State(): JobState
      reads this
    {
      JobState(status, updatedAt, result, error, progress)
    }
  }
}
