# Bellflow scrape-job core, modelled in Dafny

Bellflow collects social-media posts for later analysis. This project models its scrape-job layer.

**Jobs and engines**
- A `ScrapeJob` record with a four-state status (pending, running, completed, failed).
- The `JobManager` registry, which maps job ids to jobs and to engines and keeps each user's ids in order.
- Two engines behind the same interface:
  - the remote Bright Data engine submits a dataset request and later classifies each poll reply into a status change;
  - the Playwright engine drives a browser to completion inside `initialize_scrape`.

**The browser-side scrapers**
- The stand-alone platform-scraper base class, with its limit test, selector discovery and scroll loop.
- The Threads scraper and the Threads platform definition, with the engagement-metric heuristic.
- The stand-alone `scrape_scroll.py` script.
- The session manager: browser profiles on disk and the shared registry of live sessions.

**Two small routers**
- The tasks router maps a document's pipeline status to a list of tasks.
- The demonstration item store offers create, read, update and delete.

**How the model works**
- Mutable objects are classes: jobs, engines, the registry, the disk, the session registry, the item store and browser contexts. Their methods state the new value of every field they change. The exception is `ListUserJobs`: its lookups poll remote jobs on the way, and its contract states what it returns, not each polled job's new state.
- Each loop is proved against a specification function. Examples are `ScrollLength` for the three scroll loops, `FirstMatching` for the three selector probes, `ThreadsItem`/`ItemsOf` for the metric pass, `PollState` for polling and `EventsFrom` for event parsing.
- Lemmas about those functions state what the source promises.
- The outside world becomes parameters:
  - clocks are integers;
  - HTTP replies are datatypes;
  - a page is a selector-count function and, per scroll, a match count and a clock reading;
  - `context.close()` and `playwright.stop()` are counted calls that may raise.

## Model

| member | source | states |
|---|---|---|
| BaseEngine.StatusFromValue | src/backend/app/scraper/engines/base_engine.py:10-15 | looking up an enum value gives a member whose value is that string |
| BaseEngine.StatusValueRoundTrip | src/backend/app/scraper/engines/base_engine.py:10-15 | the enum has exactly the values pending, running, completed and failed, and each member's value maps back to that member |
| BaseEngine.ScrapeJob.constructor | src/backend/app/scraper/engines/base_engine.py:18-30 | a new job has the given id, status, platform, url, user and time; result, error and progress are absent |
| BaseEngine.ResultsOutcome | src/backend/app/scraper/engines/base_engine.py:94-105 | results are handed out exactly when the job is completed and has a result; otherwise it is a not-completed or no-results error |
| Paging.ScrollLength | src/backend/app/scraper/engines/playwright_engine.py:237-271 | a scroll loop runs at least once and at most the ceiling; no scroll before the last met a stop condition; it ends before the ceiling only because its last scroll stopped it |
| Paging.ScrollLengthUnique | src/backend/app/scraper/engines/playwright_engine.py:237-271 | those three facts determine the number of scrolls |
| Paging.StopsOneScrollAfterGrowthEnds | src/backend/app/scraper/engines/playwright_engine.py:265-268 | once the count does not grow between two scrolls, the loop ends at the later of them |
| Paging.FixedPageStopsEarly | src/backend/app/scraper/engines/playwright_engine.py:241-268 | a page whose count never changes stops after the second scroll, or after the first when the count is 0 |
| Paging.PostLimitMetAtOnce | src/backend/app/scraper/engines/playwright_engine.py:252-254 | a truthy post limit that the first count already meets stops the loop after one scroll |
| Paging.Truncate | src/backend/app/scraper/engines/playwright_engine.py:181-182 | `items[:post_limit]` when a truthy limit is exceeded: always a prefix; unchanged when the limit is unset; `min(limit, n)` items for a positive limit; the last `-limit` items dropped for a negative one |
| Paging.TruncateIdempotent | src/backend/app/scraper/platforms/threads.py:155-156 | truncating to a positive or unset limit twice is the same as truncating once |
| Paging.FirstMatching | src/backend/app/scraper/engines/playwright_engine.py:208-219 | the adopted selector is the first matching one in list order; None exactly when no selector matches |
| Paging.FirstMatchingIsFirst | playwright/scraper/base.py:98-106 | a matching selector with only non-matching ones before it is the one adopted |
| Metrics.LineNumber | src/backend/app/scraper/platforms/definitions/threads_platform.py:46-47 | a line contributes one number exactly when, once trimmed, it is a non-empty run of digits |
| Metrics.RawNumbersOfLines | src/backend/app/scraper/platforms/threads.py:51-52 | for a text made of lines, the raw numbers are the values of exactly the digit-run lines, in order |
| Metrics.RawNumbers | src/backend/app/scraper/platforms/threads.py:51-52 | a text without a newline is one line and contributes that line's number, if any |
| Text.Split | src/backend/app/scraper/platforms/threads.py:51 | at least one part, and no part holds the separator |
| Text.JoinSplit | src/backend/app/scraper/platforms/threads.py:51 | joining the parts of a split with its separator gives the text back |
| Text.SplitJoin | src/backend/app/scraper/platforms/threads.py:51 | splitting a join of separator-free parts gives the parts back |
| Text.Trim | src/backend/app/scraper/platforms/definitions/threads_platform.py:46-47 | never longer; no space left at either end; an all-space text becomes empty; a text without space at either end is unchanged |
| Metrics.LineNumberValue | src/backend/app/scraper/platforms/threads.py:52 | a line holding the decimal rendering of n contributes exactly n |
| Metrics.AssignMetrics | src/backend/app/scraper/platforms/threads.py:74-79 | fewer than three numbers give no metrics; exactly three give the last three; four or more give the 4th-, 3rd- and 2nd-from-last |
| Metrics.MetricsIgnoreLastAndPrefix | src/backend/app/scraper/platforms/threads.py:77-79 | with four or more numbers, the last one and everything before the chosen three play no part |
| Metrics.MetricsExamples | playwright/scrape_scroll.py:126-130 | [488, 55, 12] gives 488/55/12, [204, 488, 55, 12] gives 204/488/55, and [55, 12] gives nothing |
| Metrics.ThreadsItem | src/backend/app/scraper/platforms/threads.py:64-81 | an item copies the element's text and link, takes its metrics from its numbers, and has no date or views |
| Metrics.BuildItem | src/backend/app/scraper/platforms/threads.py:65-79 | the loop body that starts each metric as None and fills the metrics builds exactly `ThreadsItem` |
| Metrics.ItemsPrefixStep | src/backend/app/scraper/platforms/threads.py:81 | appending the next element's item extends the in-order prefix by one |
| Metrics.ItemsOf | src/backend/app/scraper/platforms/threads.py:62-83 | one item per raw element, in order |
| Metrics.FewNumbersNoMetrics | src/backend/app/scraper/platforms/threads.py:67-75 | fewer than three numbers leave likes, comments and reposts unset |
| BrightData.DatasetId | src/backend/app/scraper/engines/brightdata_engine.py:21-25 | a dataset exists exactly for twitter and linkedin, case-insensitively, and is non-empty |
| BrightData.ResolveApiKey | src/backend/app/scraper/engines/brightdata_engine.py:36-41 | the explicit key when non-empty, else the environment's; an error exactly when both are empty or missing |
| BrightData.DayWindow | src/backend/app/scraper/engines/brightdata_engine.py:182-189 | 365 days for no limit, 0 or ≥ 500; 90 for 100–499; 30 for 50–99; 7 otherwise |
| BrightData.DayWindowMonotone | src/backend/app/scraper/engines/brightdata_engine.py:182-189 | among positive limits, more posts never give a shorter window |
| BrightData.TenPostsIsOneWeek | src/backend/app/scraper/engines/brightdata_engine.py:188-189 | a limit of 10 asks for 7 days |
| BrightData.ConvertLimitToDates | src/backend/app/scraper/engines/brightdata_engine.py:164-194 | the window ends now and reaches back exactly `DayWindow` days |
| BrightData.SubmitOutcome | src/backend/app/scraper/engines/brightdata_engine.py:92-141 | the snapshot id is adopted exactly when the platform is supported, the reply is 200, the body is an object and its `snapshot_id` is truthy; an unsupported platform gives its own message |
| BrightData.SubmittedState | src/backend/app/scraper/engines/brightdata_engine.py:143-159 | after submission the job is running with the snapshot in its progress, or failed with the error; it steps forward from pending and stays coherent |
| BrightData.ResolvedOne | src/backend/app/scraper/engines/brightdata_engine.py:310-319 | a field with one alias is that key's value, with an empty-string fallback for the text |
| BrightData.ResolvedTwo | src/backend/app/scraper/engines/brightdata_engine.py:320-337 | a field with two aliases is `a or b`, with an empty-string fallback for the text |
| BrightData.NormalizeFollowsAliases | src/backend/app/scraper/engines/brightdata_engine.py:307-350 | every field of a normalised post is the first truthy key of its platform's alias list, as tabulated (twitter comments from `replies`, linkedin likes from `num_likes` or `likes`, generic reposts from `reposts` or `shares`) |
| BrightData.NormalizedTextPresent | src/backend/app/scraper/engines/brightdata_engine.py:310-337 | a normalised text is a truthy value or the empty string |
| BrightData.Normalized | src/backend/app/scraper/engines/brightdata_engine.py:307-338 | one normalised item per record |
| BrightData.NormalizePost | src/backend/app/scraper/engines/brightdata_engine.py:310-337 | only twitter posts carry views; only twitter and linkedin posts carry a date |
| BrightData.Transformed | src/backend/app/scraper/engines/brightdata_engine.py:339-351 | the result has one item per record, in order; its total equals the item count; it has no post or time limit and the selector `BrightData API` |
| BrightData.PollStepsForward | src/backend/app/scraper/engines/brightdata_engine.py:208-293 | a poll only moves the status forward and keeps result and error coherent with it |
| BrightData.PollState | src/backend/app/scraper/engines/brightdata_engine.py:208-293 | a terminal job is kept as it is; the status either stays or becomes terminal; a newly completed job came from a 200 list reply and holds `Transformed` of its records |
| BrightData.PollLeavesTerminalJob | src/backend/app/scraper/engines/brightdata_engine.py:213-215 | a completed or failed job is returned unchanged, without a poll |
| BrightData.PollStatusIdempotent | src/backend/app/scraper/engines/brightdata_engine.py:208-215 | polling a job a second time with the same reply reports the status the first poll left |
| BrightData.PollInProgressKeepsStatus | src/backend/app/scraper/engines/brightdata_engine.py:235-266 | a 202, a 404 or a `running` object keeps status, result and error and replaces only the progress |
| BrightData.PollListOutcome | src/backend/app/scraper/engines/brightdata_engine.py:269-286 | a list reply whose first record has `error` fails the job with that text; any other list, empty included, completes it with one item per record |
| BrightData.PollFailures | src/backend/app/scraper/engines/brightdata_engine.py:217-291 | a missing snapshot id, a transport error, another status code or an undecodable 200 fails the job |
| BrightData.CancelState | src/backend/app/scraper/engines/brightdata_engine.py:389-401 | after cancelling the job is terminal; it is changed exactly when it was in flight |
| BrightData.CancelIdempotent | src/backend/app/scraper/engines/brightdata_engine.py:389-401 | cancelling twice is the same as cancelling once |
| BrightData.BrightDataEngine.New | src/backend/app/scraper/engines/brightdata_engine.py:29-48 | the engine is created exactly when an API key resolves, and starts with no jobs and no snapshots |
| BrightData.BrightDataEngine.IsAsync | src/backend/app/scraper/engines/brightdata_engine.py:50-52 | the remote engine must be polled |
| BrightData.BrightDataEngine.InitializeScrape | src/backend/app/scraper/engines/brightdata_engine.py:77-162 | the job is stored under its id; the trigger request carries the dataset, the url and the date window; the job ends in `SubmittedState`; the snapshot is recorded on success only |
| BrightData.BrightDataEngine.TransformResponse | src/backend/app/scraper/engines/brightdata_engine.py:307-351 | the item-building loop computes exactly `Transformed` |
| BrightData.BrightDataEngine.GetStatus | src/backend/app/scraper/engines/brightdata_engine.py:208-293 | an unknown id is an error; otherwise the stored job is updated in place to `PollState` and returned |
| BrightData.BrightDataEngine.GetResults | src/backend/app/scraper/engines/brightdata_engine.py:363-374 | polls first, then answers `ResultsOutcome` on the polled job |
| BrightData.BrightDataEngine.CancelJob | src/backend/app/scraper/engines/brightdata_engine.py:389-401 | true exactly when a known job was in flight; that job becomes failed with `Job cancelled by user` |
| Playwright.ScrapeOutcome | src/backend/app/scraper/engines/playwright_engine.py:122-203 | navigation errors propagate; no matching selector gives the soft `No posts found` result; a page call failing after that (the initial count, a scroll or a count) propagates; an extractor error propagates; otherwise the result is scraped with the first matching selector, its items are exactly what the extractor returned (none without an extractor) truncated to the post limit, and its total equals its item count |
| Playwright.FinishedState | src/backend/app/scraper/engines/playwright_engine.py:73-89 | the job leaves completed with the result or failed with the error, never in flight |
| Playwright.AfterClose | src/backend/app/scraper/engines/playwright_engine.py:205-206 | a `close()` that raises replaces the outcome with its error; otherwise the outcome stands; success exactly when both succeed |
| Playwright.NoSelectorStillCompletes | src/backend/app/scraper/engines/playwright_engine.py:79-81 | a page without a matching selector still completes its job, with the soft-failure result |
| Playwright.PlaywrightEngine.IsAsync | src/backend/app/scraper/engines/playwright_engine.py:25-27 | results come back at once |
| Playwright.PlaywrightEngine.FindSelector | src/backend/app/scraper/engines/playwright_engine.py:208-219 | the probe loop returns `FirstMatching`, skipping selectors whose evaluation raises |
| Playwright.PlaywrightEngine.ScrollAndLoad | src/backend/app/scraper/engines/playwright_engine.py:221-271 | performs `ScrollLength` scrolls under the post/time rule and returns the last count read |
| Playwright.PlaywrightEngine.ExecuteScrape | src/backend/app/scraper/engines/playwright_engine.py:122-206 | returns `ScrapeOutcome`, or the close error, and closes the context exactly once on every path |
| Playwright.PlaywrightEngine.InitializeScrape | src/backend/app/scraper/engines/playwright_engine.py:52-89 | the job is stored running under its id and ends in `FinishedState` of the scrape |
| Playwright.PlaywrightEngine.GetStatus | src/backend/app/scraper/engines/playwright_engine.py:273-277 | the stored job, or a not-found error exactly for an unknown id |
| Playwright.PlaywrightEngine.GetResults | src/backend/app/scraper/engines/playwright_engine.py:279-289 | not found for an unknown id, else `ResultsOutcome` of the stored job |
| Playwright.PlaywrightEngine.CancelJob | src/backend/app/scraper/engines/playwright_engine.py:291-298 | always false |
| Jobs.RecentWindow | src/backend/app/scraper/job_manager.py:154 | `ids[-limit:]` is a suffix: the last `limit` ids for a positive limit, all of them for 0, and all but the first `-limit` for a negative one |
| Jobs.RemoveFirstMultiset | src/backend/app/scraper/job_manager.py:215-218 | `list.remove` takes exactly one copy of a present id out and leaves a list without it unchanged |
| Jobs.RemoveFirst | src/backend/app/scraper/job_manager.py:216-218 | a list without the id is unchanged; otherwise one element shorter, with everything before the first occurrence kept and everything after it moved up by one |
| Jobs.Reverse | src/backend/app/scraper/job_manager.py:157 | `reversed`: same length, element i is element `n-1-i` of the input |
| Jobs.RemoveFirstDropFirsts | src/backend/app/scraper/job_manager.py:201-218 | removing one more id by its first occurrence is the same as dropping that id along with the others |
| Jobs.DropFirstsMultiset | src/backend/app/scraper/job_manager.py:201-218 | dropping the first occurrences of a set of ids takes exactly one copy of each present id out |
| Jobs.TrackedStep | src/backend/app/scraper/job_manager.py:157-163 | one candidate's lookup extends the in-order record of picks and seen statuses, appending exactly when the lookup succeeded and the status passed the filter |
| Jobs.CountsPartition | src/backend/app/scraper/job_manager.py:227-242 | the four status counts sum to the number of jobs |
| Jobs.JobManager.CreateJob | src/backend/app/scraper/job_manager.py:67-85 | the engine's new job and the engine are filed under the job id, and the id is appended to the user's list, which is created if absent; the engine stores the job under its id; a remote job ends in `SubmittedState` with the snapshot recorded on success only and the context untouched; an automation job ends in `FinishedState` with the context closed exactly once |
| Jobs.JobManager.Register | src/backend/app/scraper/job_manager.py:76-83 | the job and engine are filed under the id and the id is appended to the user's list, created if absent; the registry stays consistent |
| Jobs.JobManager.GetJob | src/backend/app/scraper/job_manager.py:102-116 | an unknown id, or one without an engine, is an error; a remote engine is polled and its record replaces the cached one; an automation job is returned from cache and nothing changes |
| Jobs.JobManager.LookupJob | src/backend/app/scraper/job_manager.py:102-116 | `get_job` inside the listing loop: succeeds exactly when the id is findable, and then returns the job now stored under the id, whose status is `LookupStatus` of the state before; afterwards a lookup of the same id with the same reply sees that status again; other ids' stored jobs are untouched |
| Jobs.JobManager.ViewOf | src/backend/app/scraper/job_manager.py:102-116 | what a lookup of an id depends on exists exactly when the id is findable |
| Jobs.JobManager.LookupStatus | src/backend/app/scraper/job_manager.py:102-116 | the status a lookup reports exists exactly when the id is findable |
| Jobs.SeenStatus | src/backend/app/scraper/job_manager.py:109-114 | a lookup reports a status exactly when there is something to look up; an automation job reports its cached status, a finished remote job its stored status, and any other remote job the status after one poll |
| Jobs.JobManager.GetJobResults | src/backend/app/scraper/job_manager.py:131-135 | no engine is an error; otherwise the engine's `get_results` answer |
| Jobs.JobManager.LookupFiltered | src/backend/app/scraper/job_manager.py:157-164 | the lookup succeeds exactly when the id has a job and an engine that still holds it; the status it reports is `LookupStatus` of the state before the call (the cached status of an automation job, the status after one poll of a remote job) and is the status now stored under the id; what a lookup of any other id sees is unchanged; a job is returned exactly when the lookup succeeds and that status passes the filter, and it is the job now stored under the id |
| Jobs.JobManager.ListUserJobs | src/backend/app/scraper/job_manager.py:154-165 | candidates are the user's recent window, newest first; the status seen for candidate i is its `LookupStatus` in the state before the call; candidate i is in the result, in order, exactly when its lookup succeeds and that status passes the filter; every returned job is the job now stored under its candidate id; with no filter, exactly the candidates whose lookup succeeds; at most `limit` jobs; with a terminal filter every job has that status |
| Jobs.JobManager.Visit | src/backend/app/scraper/job_manager.py:158-163 | one iteration of the lookup loop extends the record of picks and seen statuses; the seen status is the candidate's `LookupStatus` before the call, and what every other candidate's lookup will see is unchanged; the maps keep their keys; every picked job stays the job stored under its id; the terminal-filter fact is kept |
| Jobs.JobManager.CancelJob | src/backend/app/scraper/job_manager.py:177-181 | false when no engine is recorded or the engine is the automation one; otherwise the remote engine's answer and state change |
| Jobs.JobManager.Evictable | src/backend/app/scraper/job_manager.py:195-199 | only known jobs, each completed or failed and last updated before the cutoff |
| Jobs.JobManager.CollectEvictable | src/backend/app/scraper/job_manager.py:195-199 | the first loop collects exactly `Evictable` |
| Jobs.JobManager.RemoveJob | src/backend/app/scraper/job_manager.py:206-218 | the id leaves the job and engine maps, and its first occurrence leaves its owner's list; every other list is unchanged |
| Jobs.JobManager.RemoveAll | src/backend/app/scraper/job_manager.py:201-202 | removing a set of ids takes them out of both maps, and each user's list becomes the old list with the first occurrence of each of that user's removed ids dropped, in order |
| Jobs.JobManager.EvictAll | src/backend/app/scraper/job_manager.py:201-202 | the evicted ids leave both maps, each user's list loses the first occurrence of each of its evicted ids, and the registry stays consistent |
| Jobs.JobManager.CleanupOldJobs | src/backend/app/scraper/job_manager.py:190-204 | exactly the finished jobs older than the age limit are evicted, and leave their owner's list by their first occurrence with the order kept; pending and running jobs always remain |
| Jobs.JobManager.GetStats | src/backend/app/scraper/job_manager.py:227-242 | the job total, one count per status summing to it, and the number of users ever seen |
| Sessions.Components | src/backend/app/scraper/session_manager.py:38 | parsing drops empty and `.` segments |
| Sessions.JoinPlainName | src/backend/app/scraper/session_manager.py:38 | `base / name` for a plain name (non-empty, without `/`, neither `.` nor `..`) is the entry directly under base |
| Sessions.RootedNameIgnoresBase | src/backend/app/scraper/session_manager.py:38 | a name starting with `/` yields the same path whatever the base |
| Sessions.EmptyNameIsBase | src/backend/app/scraper/session_manager.py:38 | an empty name yields the base itself |
| Sessions.SubdirNamesExact | src/backend/app/scraper/session_manager.py:171 | a plain name is listed exactly when that directory exists directly under base |
| Sessions.SessionIdOwner | src/backend/app/scraper/session_manager.py:131 | for a user id without `_`, the session id's first `_`-segment is the user |
| Sessions.SessionId | src/backend/app/scraper/session_manager.py:131 | the session id starts with the user id followed by `_` |
| Text.IntToString | src/backend/app/scraper/session_manager.py:131 | `str(i)`: a non-negative number renders as digits that parse back to it; a negative one as `-` followed by the digits of its magnitude |
| Sessions.Disk.MkdirExistOk | src/backend/app/scraper/session_manager.py:26 | `mkdir(exist_ok=True)` succeeds exactly when the path is already a directory, or its parent is a directory and nothing is there; files never change |
| Sessions.Disk.RemoveTree | src/backend/app/scraper/session_manager.py:156 | `rmtree` removes everything at or below a directory, and refuses a file without changing anything |
| Sessions.SessionRegistry.Register | src/backend/app/scraper/session_manager.py:133-139 | exactly one entry is set, and entries keep separate objects |
| Sessions.SessionRegistry.Unregister | src/backend/app/scraper/session_manager.py:180-183 | removes the entry if present; otherwise nothing changes |
| Sessions.SessionRegistry.CleanupAll | src/backend/app/scraper/session_manager.py:186-219 | every entry's context is closed once and, unless that raised, its driver stopped once; one failure does not stop the others; the registry ends empty |
| Sessions.Entries | src/backend/app/scraper/session_manager.py:200 | the snapshot lists every entry exactly once |
| Sessions.CleanupEntries | src/backend/app/scraper/session_manager.py:200-216 | the cleanup loop leaves every entry of the snapshot cleaned up |
| Sessions.CleanupEntry | src/backend/app/scraper/session_manager.py:201-216 | one entry: close, then stop only when close did not raise |
| Browser.BrowserContext.Close | src/backend/app/scraper/session_manager.py:208-209 | `close()` is counted; it succeeds exactly when no failure is set, and then the context is closed |
| Browser.Driver.Stop | src/backend/app/scraper/session_manager.py:210-211 | `stop()` is counted; it succeeds exactly when no failure is set, and then the driver is stopped |
| Sessions.SessionManager.GetProfileDir | src/backend/app/scraper/session_manager.py:28-39 | for a plain user id, the profile is the directory directly under base named after the user |
| Sessions.SessionManager.ProfileExists | src/backend/app/scraper/session_manager.py:41-51 | for a plain user id, true exactly when a directory or file exists directly under base under that name |
| Sessions.SessionManager.LoadSession | src/backend/app/scraper/session_manager.py:131-143 | fresh driver and context are registered under the user/thread/clock session id and returned |
| Sessions.SessionManager.UnregisterSession | src/backend/app/scraper/session_manager.py:173-183 | the entry is removed from the shared registry |
| Sessions.SessionManager.DeleteSession | src/backend/app/scraper/session_manager.py:145-159 | nothing happens when the profile is missing; a profile directory and everything below it is removed |
| Sessions.SessionManager.ListProfiles | src/backend/app/scraper/session_manager.py:161-171 | empty when base is missing; otherwise a plain name is listed exactly when its profile directory exists |
| Sessions.NewSessionManager | src/backend/app/scraper/session_manager.py:18-26 | the manager exists exactly when the base directory is present or can be created, and base is then a directory |
| PlatformScraper.BasePlatformScraper.constructor | playwright/scraper/base.py:12-38 | defaults: no limits, 0.75 s delay, not headless, no start time |
| PlatformScraper.BasePlatformScraper.ShouldContinueScraping | playwright/scraper/base.py:64-84 | false once a truthy post limit is met; false when both time limit and start time are set and the time is up; the time limit is ignored without a start time |
| PlatformScraper.BasePlatformScraper.FindPostSelector | playwright/scraper/base.py:86-106 | returns `FirstMatching` over the platform's list |
| PlatformScraper.BasePlatformScraper.ScrollAndLoad | playwright/scraper/base.py:108-154 | performs `ScrollLength` scrolls under `should_continue_scraping` and returns the last count read |
| PlatformScraper.BasePlatformScraper.Start | src/backend/app/scraper/platforms/threads.py:100 | scraping records its start time |
| Threads.PostSelectors | src/backend/app/scraper/platforms/threads.py:19-30 | eight distinct candidates, starting with `article` |
| Threads.ArticleWins | src/backend/app/scraper/platforms/threads.py:19-30 | a page on which `article` matches always adopts it |
| Threads.ScrapeOutcome | src/backend/app/scraper/platforms/threads.py:109-177 | navigation errors propagate; no selector gives `No posts found`; a page call failing after that (the initial count, a scroll, a count or the extraction) propagates; otherwise the items are exactly `Truncate(ItemsOf(elements), post_limit)` of the matched elements, and the total equals the item count |
| Threads.CloseCount | src/backend/app/scraper/platforms/threads.py:124-180 | the context is closed twice when no selector matched, once on every other path |
| Threads.ThreadsScraper.constructor | playwright/scraper/base.py:12-38 | the base scraper with the given settings and no start time |
| Threads.ThreadsScraper.ExtractPostData | src/backend/app/scraper/platforms/threads.py:62-83 | one `ThreadsItem` per raw element, in order |
| Threads.ThreadsScraper.LimitedItems | src/backend/app/scraper/platforms/threads.py:152-156 | extraction followed by truncation gives `Truncate(ItemsOf(raws), post_limit)` |
| Threads.ThreadsScraper.Scrape | src/backend/app/scraper/platforms/threads.py:85-180 | sets the start time; returns `ScrapeOutcome`, unless a close raised; closes the context `CloseCount` times |
| ThreadsPlatform.GetSelectors | src/backend/app/scraper/platforms/definitions/threads_platform.py:14-25 | the same eight candidates as the scraper, starting with `article` |
| ThreadsPlatform.ExtractData | src/backend/app/scraper/platforms/definitions/threads_platform.py:57-78 | one `ThreadsItem` per raw element, in order |
| ScrapeScroll.SelectorsToTry | playwright/scrape_scroll.py:60-69 | eight candidates, starting with `article` |
| ScrapeScroll.SameCandidatesOtherOrder | playwright/scrape_scroll.py:60-69 | the script's list holds the same candidates as the scraper's, in a different order |
| ScrapeScroll.AutoScrollWithCount | playwright/scrape_scroll.py:12-42 | performs `ScrollLength` scrolls under the unconditional target test and returns the last count read |
| ScrapeScroll.ZeroTargetIsNotNoLimit | playwright/scrape_scroll.py:31-33 | a target of 0 stops after one scroll, while a post limit of 0 in the engine counts as no limit |
| ScrapeScroll.ProbeSelector | playwright/scrape_scroll.py:71-81 | the probe loop with its break adopts `FirstMatching` |
| ScrapeScroll.ExtractItems | playwright/scrape_scroll.py:112-132 | one `ThreadsItem` per raw element, in order, with no truncation |
| ScrapeScroll.SavedOutput | playwright/scrape_scroll.py:137-147 | nothing is saved when navigation fails, no selector matches or a later page call fails; otherwise the output holds every matched element's item, the selector, the fixed url and the target |
| ScrapeScroll.Run | playwright/scrape_scroll.py:44-162 | a navigation error, or a page call failing once a selector is adopted, ends the script before any close; otherwise one close, then `exit(1)` without a selector or a normal end, unless the close raised |
| Tasks.RetrieverTask | src/backend/app/routers/tasks.py:17-27 | ids derived from the document id, the given status, the document's timestamp, never any events |
| Tasks.MakeEvent | src/backend/app/routers/tasks.py:38-44 | defaults id i+1, name `Step i+1`, status `info` and message `""`; a non-text timestamp is a type error; a default timestamp fails only when it does not parse; the event's timestamp is what the stored (or default) text parses to, and a text timestamp is a value error exactly when it does not parse |
| Tasks.OnlyDictsBecomeEvents | src/backend/app/routers/tasks.py:36-44 | one event per dictionary entry, nothing for other entries |
| Tasks.NoDictsNoEvents | src/backend/app/routers/tasks.py:36-37 | a list without dictionaries gives no events |
| Tasks.AnalyzerEvents | src/backend/app/routers/tasks.py:31-47 | no events field, or undecodable text, gives no events; the only uncaught failure is a type error |
| Tasks.AnalyzerTask | src/backend/app/routers/tasks.py:29-58 | the analyzer task carries the derived ids, the status and the parsed events, and fails exactly on a type error |
| Tasks.EventList | src/backend/app/routers/tasks.py:32-35 | a falsy or non-list field yields no events; otherwise the events are those of the decoded list |
| Tasks.CollectEvents | src/backend/app/routers/tasks.py:36-47 | the loop computes `EventsFrom` of the whole list |
| Tasks.CreateAnalyzerTask | src/backend/app/routers/tasks.py:29-58 | the method computes `AnalyzerTask` |
| Tasks.SuffixAfterPrefix | src/backend/app/routers/tasks.py:97 | after a stage prefix, the suffix is the text up to the next colon, or all of it when there is none |
| Tasks.StagedSplits | src/backend/app/routers/tasks.py:97-102 | a status starting with `stage:` has a second `:`-segment, which is the suffix |
| Tasks.GetTasks | src/backend/app/routers/tasks.py:92-109 | `analyzer:` gives a completed retriever task, then the analyzer task with the suffix status; `retriever:` gives one retriever task with the suffix; anything else, or no status, gives one `processing` retriever task; a non-text status fails |
| Sample.Updated | src/backend/app/routers/sample.py:63-67 | every field the update sets is overwritten and every other field is kept |
| Sample.EmptyUpdateKeeps | src/backend/app/routers/sample.py:63-67 | an update that sets nothing leaves the item as it was |
| Sample.FirstIndexOf | src/backend/app/routers/sample.py:27-31 | the position of the first item with the id; None exactly when no item has it |
| Sample.OrderedIdsUnique | src/backend/app/routers/sample.py:39-52 | with increasing ids, each id names at most one item |
| Sample.RemovePreservesOrder | src/backend/app/routers/sample.py:77-82 | removing one item keeps the ids increasing |
| Sample.SampleItems | src/backend/app/routers/sample.py:93-118 | three sample items |
| Sample.CreatedIdsIncrease | src/backend/app/routers/sample.py:39-52 | two creations hand out consecutive ids, the later one larger, and the ids stay ordered |
| Sample.ItemStore.constructor | src/backend/app/routers/sample.py:10-11 | the store starts empty with the counter at 0 |
| Sample.ItemStore.GetItems | src/backend/app/routers/sample.py:14-19 | the list itself, in insertion order |
| Sample.ItemStore.GetItem | src/backend/app/routers/sample.py:22-31 | the first item with the id, or 404 `Item not found` exactly when there is none |
| Sample.ItemStore.CreateItem | src/backend/app/routers/sample.py:34-52 | the counter moves on by one; the new item carries it as id and is appended; its id exceeds every earlier one |
| Sample.ItemStore.UpdateItem | src/backend/app/routers/sample.py:55-69 | only the first matching item changes, to `Updated`; an unknown id is 404 and nothing changes |
| Sample.ItemStore.DeleteItem | src/backend/app/routers/sample.py:72-82 | exactly the first matching item is removed and the others keep their order; an unknown id is 404 |
| Sample.ItemStore.SeedSampleData | src/backend/app/routers/sample.py:86-128 | three items are appended under the next three ids, with the message `Created 3 sample items` |

## Left out

- Network, browser and file I/O are parameters: page loads, selector queries, HTTP calls, `json.dump` to a file, and `shutil`/`pathlib` calls modelled by the `Disk` class.
- Each operation reads the clock once, as an integer. Date formatting (`strftime`, ISO dates) and `uuid4` are parameters.
- Floating point is left out: `elapsed_time` and `round()`, the float scroll delay (kept as 750 ms) and the item price (kept as an integer count of cents).
- Metrics.LineNumber: JavaScript's `parseInt` returns a double, so a digit run above 2^53 is rounded in the source; the model reads it exactly.
- Concurrency is left out: the locks, the singleton `__new__` of the job manager, `async`/`await`, and the thread identity, which is a parameter.
- Logging and `print` output are left out. The value of the `initial_count` query only feeds a message; that query raising is `laterError` of the page.
- Playwright.ScrapeOutcome, Threads.ScrapeOutcome, ScrapeScroll.Run: a page call failing after the selector is adopted is one error, `laterError`; which call raised it, and how many scrolls ran before it, are left out.
- The message for a trigger reply without a snapshot id carries the raw reply text, not Python's rendering of the decoded dictionary.
- Exception messages are stated only where the source spells them out; texts that come from libraries (decoding errors, `shutil`, `pathlib`) are placeholders.
- `Lower` folds ASCII letters only; platform names are compared after that.
- Records from the page and from Bright Data list replies are taken to be dictionaries; a missing key reads as `None`.
- JSON values are scalars (`null`, booleans, integers, strings): a record field holding a nested list or object, or a float, cannot be represented.
- The metric rule follows the code: with four or more numbers the last one is ignored.
- A comment in src/backend/tests/test_brightdata.py says a limit of 10 gives about 90 days; the code gives 7, and the model follows the code (`BrightData.TenPostsIsOneWeek`).
- Python slicing with a negative or zero limit (`items[:limit]`, `ids[-limit:]`) is modelled as written, with its quirks.
- Jobs.JobManager.ListUserJobs: does not state the new state of each job its lookups poll; `Jobs.JobManager.GetJob` states it for one lookup.
- Sessions.SessionRegistry.CleanupAll: entries are cleaned in an unspecified order; each entry is taken to hold its own context and driver.
- `SessionManager.create_session` is left out; it is the manual-login flow and refers to `sync_playwright`, which that file never imports.
- The profile directory that a persistent browser launch creates is not modelled; `load_session` only registers the session.
- Sessions.SessionManager.ListProfiles: returns a set of names; the iteration order of `iterdir` is left out.
- Sessions.SessionManager.ProfileExists: speaks only of plain names. The disk holds paths literally and does not resolve `..` or symbolic links, so for `..` (the base's parent, which always exists) or a name leading through a link the model's answer is not the operating system's.
- Sessions.SessionManager.DeleteSession: speaks of the literal path only; `delete_session("..")` removes the base's parent in the source, and a profile reached through a symbolic link is not modelled.
- Sessions.SessionManager.ListProfiles: states membership for plain names only; `..` and links are not resolved, as for `ProfileExists`.
- Paging.FirstMatching: the page's selector probe is a parameter. The source also treats an empty selector as not found, and `querySelectorAll("")` raises; the model leaves that to the probe, which is expected to answer `None` for it. Every selector list in the source is non-empty text.
- Playwright.PlaywrightEngine.ScrollAndLoad: requires at least one scroll, because with `max_scrolls` 0 the source reads an unset variable and raises `UnboundLocalError`.
- PlatformScraper.BasePlatformScraper.ScrollAndLoad: requires at least one scroll, for the same reason.
- ScrapeScroll.AutoScrollWithCount: requires at least one scroll, for the same reason.
- The Threads scraper inherits from the base class in the source. Here `ThreadsScraper` holds a `BasePlatformScraper`, because traits are not used.
- `app.scraper.base`, which the Threads scraper imports in the backend, is not part of this model. It is taken to behave like playwright/scraper/base.py.
- The Threads `scrape` and the Playwright engine's `_execute_scrape` both treat `load_session`'s result as a browser context. Here the loaded context and its page are parameters.
- Pydantic validation and coercion of `Event` and `Task` fields are left out. In the source, a validation error inside the event loop would also empty the events.
- The tasks router's ObjectId check, database lookup and 400/404/500 responses are left out; the model starts from the document found.
- The response-model validation FastAPI applies after an update that sets a field to `None` is left out.
- The stand-alone script's JSON file write, its preview output and `sync_playwright` start-up are left out; `SavedOutput` is the dictionary it would write.
- Item ids are unique only within one store. The module-level list and counter are one `ItemStore` object.
- Engine polymorphism is a datatype with one case per engine in the job manager, since traits are not used.
