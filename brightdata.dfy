/**
 * The remote-provider engine. It submits a scrape to the provider's dataset
 * API, then classifies each poll reply into a status transition, and it
 * normalises the returned records per platform.
 */
module BrightData {
  import opened Wrappers
  import opened Text
  import opened Json
  import opened BaseEngine

  const SECONDS_PER_DAY := 86400

  /** The provider's dataset per supported platform. */
  const DATASET_IDS: map<string, string> := map["twitter" := "gd_lwxkxvnf1cynvib9co", "linkedin" := "gd_l7q7dkf244hwzk73o"]

  /** The dataset for a platform, looked up by its lower-cased name. */
  function DatasetId(platform: string): (r: Option<string>)
    ensures r.Some? <==> Lower(platform) == "twitter" || Lower(platform) == "linkedin"
    ensures r.Some? ==> r.value != ""
  {
    var key := Lower(platform);
    if key in DATASET_IDS then Some(DATASET_IDS[key]) else None
  }

  /**
   * `api_key or os.environ.get("BRIGHTDATA_API_KEY")`: the explicit key when
   * non-empty, else the environment's, and an error when that is empty too.
   */
  function ResolveApiKey(apiKey: Option<string>, envKey: Option<string>): (r: Result<string, string>)
    ensures r.Success? ==> r.value != ""
    ensures r.Success? <==> (apiKey.Some? && apiKey.value != "") || (envKey.Some? && envKey.value != "")
    ensures apiKey.Some? && apiKey.value != "" ==> r == Success(apiKey.value)
  {
    var key := if apiKey.Some? && apiKey.value != "" then apiKey else envKey;
    if key.Some? && key.value != "" then Success(key.value)
    else Failure("BRIGHTDATA_API_KEY environment variable is not set. Please set it to use Bright Data scraping.")
  }

  /** How many days back the requested window reaches for a post limit. */
  function DayWindow(postLimit: Option<int>): (days: nat)
    ensures days in {365, 90, 30, 7}
    ensures days == 365 <==> postLimit.None? || postLimit.value == 0 || postLimit.value >= 500
    ensures days == 90 <==> postLimit.Some? && 100 <= postLimit.value < 500
    ensures days == 30 <==> postLimit.Some? && 50 <= postLimit.value < 100
    ensures days == 7 <==> postLimit.Some? && postLimit.value != 0 && postLimit.value < 50
  {
    if postLimit.None? || postLimit.value == 0 || postLimit.value >= 500 then 365
    else if postLimit.value >= 100 then 90
    else if postLimit.value >= 50 then 30
    else 7
  }

  /** More posts never ask for a shorter window, among positive limits. */
  lemma DayWindowMonotone(a: int, b: int)
    requires 0 < a <= b
    ensures DayWindow(Some(a)) <= DayWindow(Some(b))
  {
  }

  /** A limit of ten posts asks for one week, not the three months a test comment suggests. */
  lemma TenPostsIsOneWeek()
    ensures DayWindow(Some(10)) == 7
  {
  }

  /** The body of the trigger call: dataset, profile and date window, as instants. */
  datatype TriggerRequest = TriggerRequest(datasetId: string, url: string, startDate: int, endDate: int)

  /** `_convert_limit_to_dates`: the window ends now and reaches `DayWindow` days back. */
  function ConvertLimitToDates(postLimit: Option<int>, now: int): (w: (int, int))
    ensures w.1 == now
    ensures w.1 - w.0 == DayWindow(postLimit) * SECONDS_PER_DAY
  {
    (now - DayWindow(postLimit) * SECONDS_PER_DAY, now)
  }

  /** Reply to the trigger call: the HTTP status, raw text and decoded body, or the transport exception. */
  datatype SubmitReply = Replied(code: int, text: string, body: Body) | TransportError(message: string)

  const UNSUPPORTED_TAIL := " not supported by Bright Data engine. Supported platforms: ['twitter', 'linkedin']"

  /**
   * The submission step: the snapshot id the provider assigned, or the text of
   * the exception that ends the job.
   */
  function SubmitOutcome(platform: string, reply: SubmitReply): (r: Result<Value, string>)
    ensures r.Success? <==>
              DatasetId(platform).Some? && reply.Replied? && reply.code == 200 && reply.body.Obj?
              && Truthy(Get(reply.body.fields, "snapshot_id"))
    ensures r.Success? ==> r.value == reply.body.fields["snapshot_id"] && Truthy(r.value)
    ensures DatasetId(platform).None? ==> r == Failure("Platform '" + platform + "'" + UNSUPPORTED_TAIL)
  {
    if DatasetId(platform).None? then Failure("Platform '" + platform + "'" + UNSUPPORTED_TAIL)
    else match reply
      case TransportError(m) => Failure(m)
      case Replied(code, text, body) =>
        if code != 200 then Failure("Bright Data API error: " + IntToString(code) + " - " + text)
        else match body
          case NotJson(e) => Failure(e)
          case Obj(fields) =>
            var snapshot := Get(fields, "snapshot_id");
            if Truthy(snapshot) then Success(snapshot)
            else Failure("No snapshot_id in Bright Data response: " + text)
          case _ => Failure("'" + TypeName(body) + "' object has no attribute 'get'")
  }

  /** The state a job is left in by submission, given the submission outcome. */
  function SubmittedState(outcome: Result<Value, string>, now: int): (st: JobState)
    ensures Coherent(st) && StatusStep(Pending, st.status) && st.status != Pending
    ensures outcome.Success? <==> st.status == Running
    ensures outcome.Success? ==> st.progress == Some(Progress(Some(outcome.value), Str("Scraping job submitted to Bright Data")))
    ensures outcome.Failure? ==> st.status == Failed && st.error == Some(outcome.error) && st.progress.None?
  {
    match outcome
    case Success(s) => JobState(Running, now, None, None, Some(Progress(Some(s), Str("Scraping job submitted to Bright Data"))))
    case Failure(e) => JobState(Failed, now, None, Some(e), None)
  }

  /** Reply to a snapshot poll. */
  datatype PollReply = PollReplied(code: int, text: string, body: Body) | PollTransportError(message: string)

  /** The progress message of a 202 reply: the body's `message`, or a fallback when the body is no object. */
  function AcceptedMessage(body: Body): Value
  {
    if body.Obj? then GetOr(body.fields, "message", Str("Snapshot is being processed...")) else Str("Scraping in progress...")
  }

  /** Keys tried, in order, for each field of a normalised post. */
  datatype Field = TextField | LinkField | LikesField | CommentsField | RepostsField | DateField | ViewsField

  function FieldOf(item: Item, f: Field): Value
  {
    match f
    case TextField => item.text
    case LinkField => item.link
    case LikesField => item.likes
    case CommentsField => item.comments
    case RepostsField => item.reposts
    case DateField => item.datePosted
    case ViewsField => item.views
  }

  /** The alias table: for each platform and field, the record keys that feed it, most preferred first. */
  function Aliases(platform: string, f: Field): seq<string>
  {
    if platform == "twitter" then
      match f
      case TextField => ["description"]
      case LinkField => ["url"]
      case LikesField => ["likes"]
      case CommentsField => ["replies"]
      case RepostsField => ["reposts"]
      case DateField => ["date_posted"]
      case ViewsField => ["views"]
    else if platform == "linkedin" then
      match f
      case TextField => ["text", "description"]
      case LinkField => ["url", "post_url"]
      case LikesField => ["num_likes", "likes"]
      case CommentsField => ["num_comments", "comments"]
      case RepostsField => ["num_shares", "reposts"]
      case DateField => ["date", "date_posted"]
      case ViewsField => []
    else
      match f
      case TextField => ["text", "description"]
      case LinkField => ["url", "link"]
      case LikesField => ["likes"]
      case CommentsField => ["comments"]
      case RepostsField => ["reposts", "shares"]
      case DateField => []
      case ViewsField => []
  }

  /** The first alias whose value is truthy. */
  function FirstTruthy(post: Object, keys: seq<string>): (r: Option<Value>)
    ensures r.Some? ==> Truthy(r.value) && exists i :: 0 <= i < |keys| && r.value == Get(post, keys[i])
    ensures r.None? <==> forall i :: 0 <= i < |keys| ==> !Truthy(Get(post, keys[i]))
  {
    if |keys| == 0 then None
    else if Truthy(Get(post, keys[0])) then Some(Get(post, keys[0]))
    else
      var r := FirstTruthy(post, keys[1..]);
      assert forall i :: 1 <= i < |keys| ==> keys[i] == keys[1..][i - 1];
      r
  }

  /**
   * A field resolved through the alias table: the first truthy alias;
   * failing that the text is empty and any other field is the last alias's
   * value, and a field with no alias is absent.
   */
  function Resolved(post: Object, keys: seq<string>, f: Field): Value
  {
    var first := FirstTruthy(post, keys);
    if first.Some? then first.value
    else if f == TextField then Str("")
    else if |keys| == 0 then Null
    else Get(post, keys[|keys| - 1])
  }

  /** `_transform_brightdata_response` for one record, per platform schema. */
  function NormalizePost(platform: string, post: Object): (r: Item)
    ensures platform != "twitter" ==> r.views == Null
    ensures platform != "twitter" && platform != "linkedin" ==> r.datePosted == Null
  {
    if platform == "twitter" then
      Item(Or(Get(post, "description"), Str("")), Get(post, "url"), Get(post, "likes"), Get(post, "replies"),
           Get(post, "reposts"), Get(post, "date_posted"), Get(post, "views"))
    else if platform == "linkedin" then
      Item(Or(Or(Get(post, "text"), Get(post, "description")), Str("")), Or(Get(post, "url"), Get(post, "post_url")),
           Or(Get(post, "num_likes"), Get(post, "likes")), Or(Get(post, "num_comments"), Get(post, "comments")),
           Or(Get(post, "num_shares"), Get(post, "reposts")), Or(Get(post, "date"), Get(post, "date_posted")), Null)
    else
      Item(Or(Or(Get(post, "text"), Get(post, "description")), Str("")), Or(Get(post, "url"), Get(post, "link")),
           Get(post, "likes"), Get(post, "comments"), Or(Get(post, "reposts"), Get(post, "shares")), Null, Null)
  }

  lemma ResolvedOne(post: Object, a: string, f: Field)
    ensures Resolved(post, [a], f) == if f == TextField then Or(Get(post, a), Str("")) else Get(post, a)
  {
    assert [a][1..] == [];
  }

  lemma ResolvedTwo(post: Object, a: string, b: string, f: Field)
    ensures Resolved(post, [a, b], f) ==
            if f == TextField then Or(Or(Get(post, a), Get(post, b)), Str("")) else Or(Get(post, a), Get(post, b))
  {
    assert [a, b][1..] == [b];
    assert [b][1..] == [];
    assert FirstTruthy(post, [b]) == if Truthy(Get(post, b)) then Some(Get(post, b)) else None;
    assert FirstTruthy(post, [a, b]) == if Truthy(Get(post, a)) then Some(Get(post, a)) else FirstTruthy(post, [b]);
  }

  /** Every field of a normalised post is what the alias table resolves it to. */
  lemma NormalizeFollowsAliases(platform: string, post: Object, f: Field)
    ensures FieldOf(NormalizePost(platform, post), f) == Resolved(post, Aliases(platform, f), f)
  {
    var keys := Aliases(platform, f);
    if |keys| == 1 {
      assert keys == [keys[0]];
      ResolvedOne(post, keys[0], f);
    } else if |keys| == 2 {
      assert keys == [keys[0], keys[1]];
      ResolvedTwo(post, keys[0], keys[1], f);
    }
  }

  /** The text of a normalised post is never missing: the first truthy alias or the empty string. */
  lemma NormalizedTextPresent(platform: string, post: Object)
    ensures NormalizePost(platform, post).text == Str("") || Truthy(NormalizePost(platform, post).text)
  {
    NormalizeFollowsAliases(platform, post, TextField);
  }

  /** The posts of a completed snapshot, one normalised item per record, in order. */
  function Normalized(platform: string, data: seq<Object>): (items: seq<Item>)
    ensures |items| == |data|
  {
    seq(|data|, i requires 0 <= i < |data| => NormalizePost(platform, data[i]))
  }

  /** The result dictionary built from a completed snapshot. */
  function Transformed(platform: string, url: string, userId: string, data: seq<Object>, now: int): (r: ScrapeResult)
    ensures r.Scraped? && r.totalItems == |r.items| == |data|
    ensures r.postLimit.None? && r.timeLimit.None? && r.selectorUsed == "BrightData API"
    ensures forall i :: 0 <= i < |data| ==> r.items[i] == NormalizePost(platform, data[i])
  {
    var items := Normalized(platform, data);
    Scraped(now, url, platform, userId, |items|, None, None, "BrightData API", items)
  }

  /** A failed poll: the job ends failed with `message`. */
  function FailWith(st: JobState, message: string, now: int): JobState
  {
    st.(status := Failed, error := Some(message), updatedAt := now)
  }

  /** A poll that reports progress only: the status stays, the progress message is replaced. */
  function ProgressWith(st: JobState, message: Value, now: int): JobState
  {
    st.(progress := Some(Progress(None, message)), updatedAt := now)
  }

  /**
   * The new state of a job after `get_status`: a terminal job is left as is;
   * otherwise the job's snapshot id and the poll reply decide.
   */
  function PollState(st: JobState, snapshot: Option<Value>, reply: PollReply,
                     platform: string, url: string, userId: string, now: int): (r: JobState)
    ensures IsTerminal(st.status) ==> r == st
    ensures r.status == st.status || IsTerminal(r.status)
    ensures r.status == Completed && st.status != Completed ==>
              reply.PollReplied? && reply.code == 200 && reply.body.List?
              && r.result == Some(Transformed(platform, url, userId, reply.body.records, now))
  {
    if IsTerminal(st.status) then st
    else if snapshot.None? || !Truthy(snapshot.value) then FailWith(st, "No snapshot_id found for job", now)
    else match reply
      case PollTransportError(m) => FailWith(st, "Error checking status: " + m, now)
      case PollReplied(code, text, body) =>
        if code == 202 then ProgressWith(st, AcceptedMessage(body), now)
        else if code == 404 then ProgressWith(st, Str("Snapshot not ready yet"), now)
        else if code != 200 then
          FailWith(st, "Error checking status: API error: " + IntToString(code) + " - " + text, now)
        else match body
          case NotJson(e) => FailWith(st, "Error checking status: " + e, now)
          case Obj(fields) =>
            if Get(fields, "status") == Str("running") then
              ProgressWith(st, GetOr(fields, "message", Str("Scraping in progress...")), now)
            else st
          case Scalar(_) => st
          case List(records) =>
            if |records| > 0 && "error" in records[0] then
              FailWith(st, "Bright Data error: " + Show(records[0]["error"]), now)
            else st.(status := Completed, result := Some(Transformed(platform, url, userId, records, now)), updatedAt := now)
  }

  /** A poll only moves a job forward and keeps it coherent. */
  lemma PollStepsForward(st: JobState, snapshot: Option<Value>, reply: PollReply,
                         platform: string, url: string, userId: string, now: int)
    requires Coherent(st)
    ensures var r := PollState(st, snapshot, reply, platform, url, userId, now);
            Coherent(r) && StatusStep(st.status, r.status)
  {
  }

  /** Completed and failed jobs are returned from cache without polling. */
  lemma PollLeavesTerminalJob(st: JobState, snapshot: Option<Value>, reply: PollReply,
                              platform: string, url: string, userId: string, now: int)
    requires IsTerminal(st.status)
    ensures PollState(st, snapshot, reply, platform, url, userId, now) == st
  {
  }

  /** Polling a second time with the same reply reports the status the first poll left. */
  lemma PollStatusIdempotent(st: JobState, snapshot: Option<Value>, reply: PollReply,
                             platform: string, url: string, userId: string, now: int)
    ensures var once := PollState(st, snapshot, reply, platform, url, userId, now);
            PollState(once, snapshot, reply, platform, url, userId, now).status == once.status
  {
  }

  /** While the provider is still working (202, 404 or a `running` object) only the progress changes. */
  lemma PollInProgressKeepsStatus(st: JobState, snapshot: Value, code: int, text: string, body: Body,
                                  platform: string, url: string, userId: string, now: int)
    requires !IsTerminal(st.status) && Truthy(snapshot)
    requires code == 202 || code == 404 || (code == 200 && body.Obj? && Get(body.fields, "status") == Str("running"))
    ensures var r := PollState(st, Some(snapshot), PollReplied(code, text, body), platform, url, userId, now);
            r.status == st.status && r.result == st.result && r.error == st.error
            && r.progress.Some? && r.progress.value.snapshotId.None? && r.updatedAt == now
  {
  }

  /**
   * A list reply completes the job with one item per record unless its first
   * record carries an error, which fails the job.
   */
  lemma PollListOutcome(st: JobState, snapshot: Value, text: string, records: seq<Object>,
                        platform: string, url: string, userId: string, now: int)
    requires !IsTerminal(st.status) && Truthy(snapshot)
    ensures var r := PollState(st, Some(snapshot), PollReplied(200, text, List(records)), platform, url, userId, now);
            if |records| > 0 && "error" in records[0] then
              r.status == Failed && r.error == Some("Bright Data error: " + Show(records[0]["error"]))
            else
              r.status == Completed && r.result.Some? && r.result.value.totalItems == |records|
  {
  }

  /** Without a snapshot id, or on any other failing reply, the job fails. */
  lemma PollFailures(st: JobState, snapshot: Option<Value>, reply: PollReply,
                     platform: string, url: string, userId: string, now: int)
    requires !IsTerminal(st.status)
    requires snapshot.None? || !Truthy(snapshot.value) || reply.PollTransportError?
             || (reply.code !in {200, 202, 404}) || (reply.code == 200 && reply.body.NotJson?)
    ensures PollState(st, snapshot, reply, platform, url, userId, now).status == Failed
  {
  }

  /** `cancel_job` on a known job: a job still in flight is failed by the user, a finished one is kept. */
  function CancelState(st: JobState, now: int): (r: JobState)
    ensures IsTerminal(r.status)
    ensures IsTerminal(st.status) <==> r == st
  {
    if IsTerminal(st.status) then st else st.(status := Failed, error := Some("Job cancelled by user"), updatedAt := now)
  }

  /** Cancelling twice is cancelling once. */
  lemma CancelIdempotent(st: JobState, t1: int, t2: int)
    ensures CancelState(CancelState(st, t1), t2) == CancelState(st, t1)
  {
  }

  class BrightDataEngine {
    const apiKey: string
    var jobs: map<string, ScrapeJob>
    var snapshotMap: map<string, Value>

    constructor (apiKey: string)
      ensures this.apiKey == apiKey && jobs == map[] && snapshotMap == map[]
    {
      this.apiKey := apiKey;
      jobs := map[];
      snapshotMap := map[];
    }

    /** The engine is created only when an API key can be found. */
    static method New(apiKey: Option<string>, envKey: Option<string>) returns (r: Result<BrightDataEngine, string>)
      ensures r.Success? <==> ResolveApiKey(apiKey, envKey).Success?
      ensures r.Failure? ==> r.error == ResolveApiKey(apiKey, envKey).error
      ensures r.Success? ==> fresh(r.value) && r.value.apiKey == ResolveApiKey(apiKey, envKey).value
                             && r.value.jobs == map[] && r.value.snapshotMap == map[]
    {
      var key := ResolveApiKey(apiKey, envKey);
      if key.Failure? {
        return Failure(key.error);
      }
      var e := new BrightDataEngine(key.value);
      return Success(e);
    }

    /** Results arrive later and must be polled for. */
    function IsAsync(): bool { true }

    function SnapshotOf(jobId: string): Option<Value>
      reads this
    {
      if jobId in snapshotMap then Some(snapshotMap[jobId]) else None
    }

    /**
     * `initialize_scrape`: a pending job is stored under `jobId`, the trigger
     * request is sent when the platform has a dataset, and the job leaves as
     * running with its snapshot recorded or as failed with the error.
     */
    method InitializeScrape(url: string, userId: string, platform: string, postLimit: Option<int>,
                            timeLimit: Option<int>, jobId: string, now: int, reply: SubmitReply)
      returns (job: ScrapeJob, request: Option<TriggerRequest>)
      modifies this
      ensures fresh(job) && jobs == old(jobs)[jobId := job]
      ensures job.jobId == jobId && job.platform == platform && job.url == url && job.userId == userId
      ensures job.createdAt == now
      ensures request.Some? <==> DatasetId(platform).Some?
      ensures request.Some? ==> request.value.datasetId == DatasetId(platform).value && request.value.url == url
                                && (request.value.startDate, request.value.endDate) == ConvertLimitToDates(postLimit, now)
      ensures job.State() == SubmittedState(SubmitOutcome(platform, reply), now)
      ensures var outcome := SubmitOutcome(platform, reply);
              snapshotMap == if outcome.Success? then old(snapshotMap)[jobId := outcome.value] else old(snapshotMap)
    {
      job := new ScrapeJob(jobId, Pending, platform, url, userId, now);
      jobs := jobs[jobId := job];
      request := None;
      var outcome := Failure("");
      var datasetId := DatasetId(platform);
      if datasetId.None? {
        outcome := Failure("Platform '" + platform + "'" + UNSUPPORTED_TAIL);
      } else {
        var window := ConvertLimitToDates(postLimit, now);
        request := Some(TriggerRequest(datasetId.value, url, window.0, window.1));
        outcome := SubmitOutcome(platform, reply);
      }
      if outcome.Success? {
        snapshotMap := snapshotMap[jobId := outcome.value];
        job.status := Running;
        job.updatedAt := now;
        job.progress := Some(Progress(Some(outcome.value), Str("Scraping job submitted to Bright Data")));
      } else {
        job.status := Failed;
        job.error := Some(outcome.error);
        job.updatedAt := now;
      }
    }

    /** The result dictionary of a completed snapshot, built record by record. */
    method TransformResponse(data: seq<Object>, job: ScrapeJob, now: int) returns (r: ScrapeResult)
      ensures r == Transformed(job.platform, job.url, job.userId, data, now)
    {
      var items: seq<Item> := [];
      var i := 0;
      while i < |data|
        invariant 0 <= i <= |data|
        invariant |items| == i
        invariant forall k :: 0 <= k < i ==> items[k] == NormalizePost(job.platform, data[k])
      {
        items := items + [NormalizePost(job.platform, data[i])];
        i := i + 1;
      }
      r := Scraped(now, job.url, job.platform, job.userId, |items|, None, None, "BrightData API", items);
    }

    /** `get_status`: polls the provider for a job still in flight and updates it in place. */
    method GetStatus(jobId: string, reply: PollReply, now: int) returns (r: Result<ScrapeJob, EngineError>)
      modifies if jobId in jobs then {jobs[jobId]} else {}
      ensures jobs == old(jobs) && snapshotMap == old(snapshotMap)
      ensures jobId !in jobs ==> r == Failure(JobNotFound(jobId))
      ensures jobId in jobs ==>
                r == Success(jobs[jobId])
                && jobs[jobId].State() == PollState(old(jobs[jobId].State()), SnapshotOf(jobId), reply,
                                                    jobs[jobId].platform, jobs[jobId].url, jobs[jobId].userId, now)
    {
      if jobId !in jobs {
        return Failure(JobNotFound(jobId));
      }
      var job := jobs[jobId];
      r := Success(job);
      if IsTerminal(job.status) {
        return;
      }
      var snapshot := SnapshotOf(jobId);
      if snapshot.None? || !Truthy(snapshot.value) {
        job.status := Failed;
        job.error := Some("No snapshot_id found for job");
        job.updatedAt := now;
        return;
      }
      match reply
      case PollTransportError(m) =>
        job.status := Failed;
        job.error := Some("Error checking status: " + m);
        job.updatedAt := now;
      case PollReplied(code, text, body) =>
        if code == 202 {
          job.progress := Some(Progress(None, AcceptedMessage(body)));
          job.updatedAt := now;
        } else if code == 404 {
          job.progress := Some(Progress(None, Str("Snapshot not ready yet")));
          job.updatedAt := now;
        } else if code != 200 {
          job.status := Failed;
          job.error := Some("Error checking status: API error: " + IntToString(code) + " - " + text);
          job.updatedAt := now;
        } else {
          match body
          case NotJson(e) =>
            job.status := Failed;
            job.error := Some("Error checking status: " + e);
            job.updatedAt := now;
          case Obj(fields) =>
            if Get(fields, "status") == Str("running") {
              job.progress := Some(Progress(None, GetOr(fields, "message", Str("Scraping in progress..."))));
              job.updatedAt := now;
            }
          case Scalar(_) =>
          case List(records) =>
            if |records| > 0 && "error" in records[0] {
              job.status := Failed;
              job.error := Some("Bright Data error: " + Show(records[0]["error"]));
              job.updatedAt := now;
            } else {
              job.status := Completed;
              var result := TransformResponse(records, job, now);
              job.result := Some(result);
              job.updatedAt := now;
            }
        }
    }

    /** `get_results`: polls first, then hands out the result of a completed job. */
    method GetResults(jobId: string, reply: PollReply, now: int) returns (r: Result<ScrapeResult, EngineError>)
      modifies if jobId in jobs then {jobs[jobId]} else {}
      ensures jobs == old(jobs) && snapshotMap == old(snapshotMap)
      ensures jobId !in jobs ==> r == Failure(JobNotFound(jobId))
      ensures jobId in jobs ==>
                jobs[jobId].State() == PollState(old(jobs[jobId].State()), SnapshotOf(jobId), reply,
                                                 jobs[jobId].platform, jobs[jobId].url, jobs[jobId].userId, now)
                && r == ResultsOutcome(jobId, jobs[jobId].State())
    {
      var polled := GetStatus(jobId, reply, now);
      if polled.Failure? {
        return Failure(polled.error);
      }
      var job := polled.value;
      r := ResultsOutcome(jobId, job.State());
    }

    /** `cancel_job`: true exactly when a known job still in flight was marked failed. */
    method CancelJob(jobId: string, now: int) returns (ok: bool)
      modifies if jobId in jobs then {jobs[jobId]} else {}
      ensures jobs == old(jobs) && snapshotMap == old(snapshotMap)
      ensures ok <==> jobId in jobs && !IsTerminal(old(jobs[jobId].status))
      ensures jobId in jobs ==> jobs[jobId].State() == CancelState(old(jobs[jobId].State()), now)
    {
      if jobId !in jobs {
        return false;
      }
      var job := jobs[jobId];
      if IsTerminal(job.status) {
        return false;
      }
      job.status := Failed;
      job.error := Some("Job cancelled by user");
      job.updatedAt := now;
      return true;
    }
  }
}
