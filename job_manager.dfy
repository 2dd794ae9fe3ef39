/**
 * The job registry: which job each id names, which engine runs it, and
 * which jobs each user has started, oldest first.
 */
module Jobs {
  import opened Wrappers
  import opened BaseEngine
  import opened Browser
  import opened BrightData
  import opened Playwright
  import Json

  /** An engine, as the registry holds it. */
  datatype Engine = BrightDataKind(bd: BrightDataEngine) | PlaywrightKind(pw: PlaywrightEngine)

  /** `engine.is_async()`: only the remote engine must be polled. */
  function EngineIsAsync(e: Engine): (r: bool)
    ensures r <==> e.BrightDataKind?
  {
    match e
    case BrightDataKind(bd) => bd.IsAsync()
    case PlaywrightKind(pw) => pw.IsAsync()
  }

  function EngineObject(e: Engine): object
  {
    match e
    case BrightDataKind(bd) => bd
    case PlaywrightKind(pw) => pw
  }

  /**
   * What the world supplies to one `initialize_scrape`: the fresh job id and
   * the clock, the provider's reply to the trigger call, and the browser
   * context, page, selectors and extractor of an automation run.
   */
  datatype ScrapeEnv = ScrapeEnv(
    jobId: string, now: int, start: int, submit: SubmitReply,
    ctx: BrowserContext, page: Page, selectors: seq<string>, extractor: Extractor)

  /** Python's `s[n:]` start index on a sequence of length `len`. */
  function SliceStart(n: int, len: nat): (b: nat)
    ensures b <= len
  {
    if n >= 0 then (if n <= len then n else len)
    else if len + n >= 0 then len + n else 0
  }

  /**
   * `job_ids[-limit:]`: the last `limit` ids for a positive limit; since
   * `-0` is `0`, a zero limit keeps them all, and a negative limit drops the
   * first `-limit` ids instead.
   */
  function RecentWindow(ids: seq<string>, limit: int): (w: seq<string>)
    ensures |w| <= |ids|
    ensures w == ids[|ids| - |w|..]
    ensures limit > 0 ==> |w| == (if limit <= |ids| then limit else |ids|)
    ensures limit == 0 ==> w == ids
    ensures limit < 0 ==> |w| == (if -limit <= |ids| then |ids| + limit else 0)
  {
    ids[SliceStart(-limit, |ids|)..]
  }

  function Reverse<T>(s: seq<T>): (r: seq<T>)
    ensures |r| == |s|
    ensures forall i :: 0 <= i < |s| ==> r[i] == s[|s| - 1 - i]
  {
    if |s| == 0 then [] else [s[|s| - 1]] + Reverse(s[..|s| - 1])
  }

  /** The position of the first occurrence of `x`. */
  function IndexOf(s: seq<string>, x: string): (i: nat)
    requires x in s
    ensures i < |s| && s[i] == x && x !in s[..i]
  {
    if s[0] == x then 0
    else
      var j := IndexOf(s[1..], x);
      assert s[..j + 1] == [s[0]] + s[1..][..j];
      j + 1
  }

  /** `lst.remove(x)` when `x` is present, nothing otherwise. */
  function RemoveFirst(s: seq<string>, x: string): (r: seq<string>)
    ensures x !in s ==> r == s
    ensures x in s ==> |r| == |s| - 1 && r[..IndexOf(s, x)] == s[..IndexOf(s, x)]
                       && r[IndexOf(s, x)..] == s[IndexOf(s, x) + 1..]
  {
    if x in s then s[..IndexOf(s, x)] + s[IndexOf(s, x) + 1..] else s
  }

  /**
   * Removing the first occurrence takes exactly one copy of `x` out, when
   * there is one, and keeps the order of everything else.
   */
  lemma RemoveFirstMultiset(s: seq<string>, x: string)
    ensures multiset(RemoveFirst(s, x)) == multiset(s) - multiset{x}
    ensures x !in s ==> RemoveFirst(s, x) == s
    ensures x in s ==> |RemoveFirst(s, x)| == |s| - 1
  {
    if x in s {
      var i := IndexOf(s, x);
      assert s == s[..i] + [x] + s[i + 1..];
      assert multiset(s) == multiset(s[..i]) + multiset{x} + multiset(s[i + 1..]);
    } else {
      assert multiset(s)[x] == 0;
    }
  }

  /** Counts per status plus the totals of `get_stats`. */
  datatype Stats = Stats(totalJobs: nat, pending: nat, running: nat, completed: nat, failed: nat, totalUsers: nat)

  /** How many of the ids `ids` hold status `s` in `m`. */
  function CountIn(m: map<string, JobStatus>, ids: set<string>, s: JobStatus): nat
  {
    |set id | id in ids && id in m && m[id] == s|
  }

  /** How many ids of `m` hold status `s`. */
  function CountOf(m: map<string, JobStatus>, s: JobStatus): nat
  {
    CountIn(m, m.Keys, s)
  }

  /** Adding one id raises the count of its own status by one and no other. */
  lemma CountAdd(m: map<string, JobStatus>, ids: set<string>, x: string, s: JobStatus)
    requires x in m && x !in ids
    ensures CountIn(m, ids + {x}, s) == CountIn(m, ids, s) + (if m[x] == s then 1 else 0)
  {
    var a := set id | id in ids && id in m && m[id] == s;
    var b := set id | id in ids + {x} && id in m && m[id] == s;
    if m[x] == s {
      assert b == a + {x};
    } else {
      assert b == a;
    }
  }

  /** `CountAdd` for the four statuses at once. */
  lemma CountAddAll(m: map<string, JobStatus>, ids: set<string>, x: string)
    requires x in m && x !in ids
    ensures CountIn(m, ids + {x}, Pending) == CountIn(m, ids, Pending) + (if m[x] == Pending then 1 else 0)
    ensures CountIn(m, ids + {x}, Running) == CountIn(m, ids, Running) + (if m[x] == Running then 1 else 0)
    ensures CountIn(m, ids + {x}, Completed) == CountIn(m, ids, Completed) + (if m[x] == Completed then 1 else 0)
    ensures CountIn(m, ids + {x}, Failed) == CountIn(m, ids, Failed) + (if m[x] == Failed then 1 else 0)
  {
    CountAdd(m, ids, x, Pending);
    CountAdd(m, ids, x, Running);
    CountAdd(m, ids, x, Completed);
    CountAdd(m, ids, x, Failed);
  }

  /** No ids, nothing counted. */
  lemma CountInEmpty(m: map<string, JobStatus>, ids: set<string>, s: JobStatus)
    ensures ids == {} ==> CountIn(m, ids, s) == 0
  {
    var e := set id | id in ids && id in m && m[id] == s;
    if ids == {} {
      assert e == {};
    }
  }

  /** Every id is counted under exactly one status. */
  lemma {:induction false} CountsPartitionIn(m: map<string, JobStatus>, ids: set<string>)
    requires ids <= m.Keys
    ensures CountIn(m, ids, Pending) + CountIn(m, ids, Running) + CountIn(m, ids, Completed) + CountIn(m, ids, Failed) == |ids|
    decreases |ids|
  {
    if ids == {} {
      CountInEmpty(m, ids, Pending);
      CountInEmpty(m, ids, Running);
      CountInEmpty(m, ids, Completed);
      CountInEmpty(m, ids, Failed);
    } else {
      var x :| x in ids;
      var rest := ids - {x};
      CountsPartitionIn(m, rest);
      assert ids == rest + {x};
      CountAdd(m, rest, x, Pending);
      CountAdd(m, rest, x, Running);
      CountAdd(m, rest, x, Completed);
      CountAdd(m, rest, x, Failed);
    }
  }

  /** The four status counts of a registry sum to its number of jobs. */
  lemma CountsPartition(m: map<string, JobStatus>)
    ensures CountOf(m, Pending) + CountOf(m, Running) + CountOf(m, Completed) + CountOf(m, Failed) == |m|
  {
    CountsPartitionIn(m, m.Keys);
    assert |m.Keys| == |m|;
  }

  /** The user's share of the evicted ids. */
  ghost function OwnedBy(e: set<string>, owners: map<string, ScrapeJob>, u: string): set<string>
  {
    set id | id in e && id in owners && owners[id].userId == u
  }

  /** Nothing evicted, nothing owned. */
  lemma OwnedByNothing(owners: map<string, ScrapeJob>)
    ensures forall u :: OwnedBy({}, owners, u) == {}
  {
  }

  /**
   * A user's list after the ids of `d` have each been removed once: the
   * first occurrence of every id of `d` is taken out, and everything else
   * keeps its order.
   */
  function DropFirsts(s: seq<string>, d: set<string>): seq<string>
  {
    if |s| == 0 then []
    else if s[0] in d then DropFirsts(s[1..], d - {s[0]})
    else [s[0]] + DropFirsts(s[1..], d)
  }

  /** `list.remove` on a list whose head is known. */
  lemma RemoveFirstCons(y: string, t: seq<string>, x: string)
    ensures RemoveFirst([y] + t, x) == if y == x then t else [y] + RemoveFirst(t, x)
  {
    var s := [y] + t;
    assert s[1..] == t;
    if y == x {
      assert IndexOf(s, x) == 0;
    } else if x in t {
      var j := IndexOf(t, x);
      assert IndexOf(s, x) == j + 1;
      assert s[..j + 1] == [y] + t[..j];
      assert s[j + 2..] == t[j + 1..];
      assert RemoveFirst(s, x) == [y] + (t[..j] + t[j + 1..]);
    } else {
      assert x !in s;
    }
  }

  /** Removing nothing leaves a list as it is. */
  lemma {:induction false} DropFirstsNothing(s: seq<string>)
    ensures DropFirsts(s, {}) == s
  {
    if |s| > 0 {
      DropFirstsNothing(s[1..]);
      assert s == [s[0]] + s[1..];
    }
  }

  /**
   * Removing one more id, not yet removed, is one more `list.remove`: the
   * order in which the ids go does not matter.
   */
  lemma {:induction false} RemoveFirstDropFirsts(s: seq<string>, d: set<string>, x: string)
    requires x !in d
    ensures RemoveFirst(DropFirsts(s, d), x) == DropFirsts(s, d + {x})
  {
    if |s| == 0 {
    } else if s[0] in d {
      assert (d + {x}) - {s[0]} == (d - {s[0]}) + {x};
      RemoveFirstDropFirsts(s[1..], d - {s[0]}, x);
    } else if s[0] == x {
      RemoveFirstCons(s[0], DropFirsts(s[1..], d), x);
      assert (d + {x}) - {x} == d;
    } else {
      RemoveFirstCons(s[0], DropFirsts(s[1..], d), x);
      RemoveFirstDropFirsts(s[1..], d, x);
    }
  }

  /** The ids removed from a list are one copy of each id of `d` it holds, and nothing else. */
  lemma {:induction false} DropFirstsMultiset(s: seq<string>, d: set<string>)
    ensures multiset(DropFirsts(s, d)) == multiset(s) - multiset(d)
  {
    if |s| > 0 {
      var t := s[1..];
      assert s == [s[0]] + t;
      if s[0] in d {
        DropFirstsMultiset(t, d - {s[0]});
        assert multiset(d) == multiset(d - {s[0]}) + multiset{s[0]};
      } else {
        DropFirstsMultiset(t, d);
        assert multiset(d)[s[0]] == 0;
      }
    }
  }

  /** One more eviction is one more `list.remove` on its owner's list only. */
  lemma OwnedByStep(before: seq<string>, after: seq<string>, orig: seq<string>, done: set<string>, id: string,
                    owners: map<string, ScrapeJob>, u: string)
    requires id !in done && id in owners
    requires before == DropFirsts(orig, OwnedBy(done, owners, u))
    requires after == if owners[id].userId == u then RemoveFirst(before, id) else before
    ensures after == DropFirsts(orig, OwnedBy(done + {id}, owners, u))
  {
    var a := OwnedBy(done, owners, u);
    var b := OwnedBy(done + {id}, owners, u);
    if owners[id].userId == u {
      assert b == a + {id};
      RemoveFirstDropFirsts(orig, a, id);
    } else {
      assert b == a;
    }
  }

  /** `OwnedByStep` for every user's list at once. */
  lemma OwnedByStepAll(before: map<string, seq<string>>, after: map<string, seq<string>>,
                       orig: map<string, seq<string>>, done: set<string>, id: string, owners: map<string, ScrapeJob>)
    requires id !in done && id in owners
    requires after.Keys == before.Keys == orig.Keys
    requires forall u :: u in before ==> before[u] == DropFirsts(orig[u], OwnedBy(done, owners, u))
    requires forall u :: u in after ==>
               after[u] == if owners[id].userId == u then RemoveFirst(before[u], id) else before[u]
    ensures forall u :: u in after ==> after[u] == DropFirsts(orig[u], OwnedBy(done + {id}, owners, u))
  {
    forall u | u in after
      ensures after[u] == DropFirsts(orig[u], OwnedBy(done + {id}, owners, u))
    {
      OwnedByStep(before[u], after[u], orig[u], done, id, owners, u);
    }
  }

  /**
   * `r` holds, in order, jobs taken from distinct positions `picked` of the
   * first `i` candidates, each filed under a key in `keys`.
   */
  ghost predicate Picks(c: seq<string>, keys: set<string>, i: nat, r: seq<ScrapeJob>, picked: seq<nat>)
  {
    |picked| == |r| <= i <= |c|
    && (forall k :: 0 <= k < |r| ==> picked[k] < i && r[k].jobId == c[picked[k]] && c[picked[k]] in keys)
    && (forall k, l :: 0 <= k < l < |r| ==> picked[k] < picked[l])
  }

  /** Moving past candidate `i`, with or without taking it. */
  lemma PicksStep(c: seq<string>, keys: set<string>, i: nat, r: seq<ScrapeJob>, picked: seq<nat>, x: Option<ScrapeJob>)
    requires Picks(c, keys, i, r, picked) && i < |c|
    requires x.Some? ==> x.value.jobId == c[i] && c[i] in keys
    ensures x.Some? ==> Picks(c, keys, i + 1, r + [x.value], picked + [i])
    ensures x.None? ==> Picks(c, keys, i + 1, r, picked)
  {
  }

  /** `status is None or job.status == status`. */
  predicate Passes(statusFilter: Option<JobStatus>, s: JobStatus)
  {
    statusFilter.None? || s == statusFilter.value
  }

  /**
   * `Picks`, and moreover `seen` records the first `i` lookups, which
   * succeed exactly for the `known` ids, and a candidate is picked exactly
   * when its lookup succeeded with a status that passes the filter.
   */
  ghost predicate Tracked(c: seq<string>, keys: set<string>, known: set<string>, statusFilter: Option<JobStatus>,
                          i: nat, r: seq<ScrapeJob>, picked: seq<nat>, seen: seq<Option<JobStatus>>)
  {
    Picks(c, keys, i, r, picked) && |seen| == i
    && (forall j :: 0 <= j < i ==> (seen[j].Some? <==> c[j] in known))
    && (forall j :: 0 <= j < i ==> (j in picked <==> seen[j].Some? && Passes(statusFilter, seen[j].value)))
  }

  /** Moving past candidate `i`, with the outcome `x` of its lookup and the status `s` it saw. */
  lemma TrackedStep(c: seq<string>, keys: set<string>, known: set<string>, statusFilter: Option<JobStatus>,
                    i: nat, r: seq<ScrapeJob>, picked: seq<nat>, seen: seq<Option<JobStatus>>,
                    x: Option<ScrapeJob>, s: Option<JobStatus>)
    requires Tracked(c, keys, known, statusFilter, i, r, picked, seen) && i < |c|
    requires s.Some? <==> c[i] in known
    requires x.Some? <==> s.Some? && Passes(statusFilter, s.value)
    requires x.Some? ==> x.value.jobId == c[i] && c[i] in keys
    ensures x.Some? ==> Tracked(c, keys, known, statusFilter, i + 1, r + [x.value], picked + [i], seen + [s])
    ensures x.None? ==> Tracked(c, keys, known, statusFilter, i + 1, r, picked, seen + [s])
  {
    PicksStep(c, keys, i, r, picked, x);
    var after := if x.Some? then picked + [i] else picked;
    var seen' := seen + [s];
    assert i in after <==> x.Some?;
    forall j | 0 <= j < i + 1
      ensures (seen'[j].Some? <==> c[j] in known)
      ensures (j in after <==> seen'[j].Some? && Passes(statusFilter, seen'[j].value))
    {
      if j < i {
        assert seen'[j] == seen[j];
        assert j in after <==> j in picked;
      }
    }
  }

  /**
   * What `get_job` reads of one job: the cached status of an automation job,
   * or the state, snapshot id and descriptors a remote poll starts from.
   */
  datatype LookupView =
    | Cached(status: JobStatus)
    | Remote(state: JobState, snapshot: Option<Json.Value>, platform: string, url: string, userId: string)

  /** The status a lookup through `v` reports, a remote one after a poll with `reply`. */
  function SeenStatus(v: Option<LookupView>, reply: PollReply, now: int): (s: Option<JobStatus>)
    ensures s.Some? <==> v.Some?
    ensures v.Some? && v.value.Cached? ==> s == Some(v.value.status)
    ensures v.Some? && v.value.Remote? && IsTerminal(v.value.state.status) ==> s == Some(v.value.state.status)
  {
    match v
    case None => None
    case Some(Cached(st)) => Some(st)
    case Some(Remote(st, snapshot, platform, url, userId)) =>
      Some(PollState(st, snapshot, reply, platform, url, userId, now).status)
  }

  /** Each job is filed under its own id. */
  ghost predicate JobsKeyed(jobs: map<string, ScrapeJob>)
  {
    forall id :: id in jobs ==> jobs[id].jobId == id
  }

  /** The remote engines an engine map refers to. */
  ghost function Remotes(engines: map<string, Engine>): set<object>
  {
    set id | id in engines && engines[id].BrightDataKind? :: engines[id].bd as object
  }

  /** Every remote engine files its jobs under their own ids. */
  ghost predicate RemotesKeyed(engines: map<string, Engine>)
    reads Remotes(engines)
  {
    forall id :: id in engines && engines[id].BrightDataKind? ==>
      forall k :: k in engines[id].bd.jobs ==> engines[id].bd.jobs[k].jobId == k
  }

  /** Dropping registry entries keeps the remaining engines keyed. */
  lemma RemotesKeyedMinus(engines: map<string, Engine>, d: set<string>)
    requires RemotesKeyed(engines)
    ensures RemotesKeyed(engines - d)
  {
    assert Remotes(engines - d) <= Remotes(engines);
  }

  /** Dropping jobs keeps the remaining ones keyed. */
  lemma JobsKeyedMinus(jobs: map<string, ScrapeJob>, d: set<string>)
    requires JobsKeyed(jobs)
    ensures JobsKeyed(jobs - d)
  {
  }

  lemma MapMinusStep<K, V>(m: map<K, V>, d: set<K>, x: K)
    ensures (m - d) - {x} == m - (d + {x})
  {
  }

  class JobManager {
    var jobs: map<string, ScrapeJob>
    var engines: map<string, Engine>
    var userJobs: map<string, seq<string>>

    constructor ()
      ensures jobs == map[] && engines == map[] && userJobs == map[]
    {
      jobs := map[];
      engines := map[];
      userJobs := map[];
    }

    /** The remote engines the registry refers to. */
    ghost function RemoteEngines(): set<object>
      reads this
    {
      Remotes(engines)
    }

    /** The engine-side job record a poll of `jobId` may update. */
    ghost function EngineJob(jobId: string): (r: set<ScrapeJob>)
      reads this, RemoteEngines()
      ensures r <= EngineJobs()
    {
      if jobId in engines && engines[jobId].BrightDataKind? && jobId in engines[jobId].bd.jobs
      then {engines[jobId].bd.jobs[jobId]} else {}
    }

    /** Every engine-side record a poll may update. */
    ghost function EngineJobs(): set<ScrapeJob>
      reads this, RemoteEngines()
    {
      set id | id in engines && engines[id].BrightDataKind? && id in engines[id].bd.jobs :: engines[id].bd.jobs[id]
    }

    /** Each job is filed under its own id, here and in every remote engine. */
    ghost predicate Valid()
      reads this, RemoteEngines()
    {
      JobsKeyed(jobs) && RemotesKeyed(engines)
    }

    /**
     * `create_job`: the engine starts the job, which is filed under its id
     * with its engine and appended to the user's list, created if absent.
     */
    method CreateJob(engine: Engine, url: string, userId: string, platform: string,
                     postLimit: Option<int>, timeLimit: Option<int>, env: ScrapeEnv)
      returns (job: ScrapeJob)
      requires Valid()
      requires engine.BrightDataKind? ==> forall k :: k in engine.bd.jobs ==> engine.bd.jobs[k].jobId == k
      modifies this, EngineObject(engine), env.ctx
      ensures Valid()
      ensures fresh(job) && job.jobId == env.jobId && job.userId == userId
      ensures jobs == old(jobs)[env.jobId := job] && engines == old(engines)[env.jobId := engine]
      ensures userJobs == old(userJobs)[userId := (if userId in old(userJobs) then old(userJobs)[userId] else []) + [env.jobId]]
      ensures engine.BrightDataKind? ==>
                var outcome := SubmitOutcome(platform, env.submit);
                job.State() == SubmittedState(outcome, env.now)
                && engine.bd.jobs == old(engine.bd.jobs)[env.jobId := job]
                && engine.bd.snapshotMap == (if outcome.Success? then old(engine.bd.snapshotMap)[env.jobId := outcome.value]
                                             else old(engine.bd.snapshotMap))
                && unchanged(env.ctx)
      ensures engine.PlaywrightKind? ==>
                job.State() == FinishedState(AfterClose(ScrapeOutcome(url, userId, platform, postLimit, timeLimit, env.now,
                                                                      env.page, env.selectors, env.extractor),
                                                        env.ctx.closeFailure), env.now)
                && engine.pw.jobs == old(engine.pw.jobs)[env.jobId := job]
                && env.ctx.closeCalls == old(env.ctx.closeCalls) + 1
                && env.ctx.closed == (old(env.ctx.closed) || env.ctx.closeFailure.None?)
    {
      match engine {
        case BrightDataKind(bd) =>
          var request;
          job, request := bd.InitializeScrape(url, userId, platform, postLimit, timeLimit, env.jobId, env.now, env.submit);
        case PlaywrightKind(pw) =>
          job := pw.InitializeScrape(url, userId, platform, postLimit, timeLimit, env.jobId, env.now, env.start,
                                    env.ctx, env.page, env.selectors, env.extractor);
      }
      Register(job, engine, userId);
    }

    /** The bookkeeping half of `create_job`: file the job and its engine, and append the id to the user's list. */
    method Register(job: ScrapeJob, engine: Engine, userId: string)
      requires Valid()
      requires engine.BrightDataKind? ==> forall k :: k in engine.bd.jobs ==> engine.bd.jobs[k].jobId == k
      modifies this
      ensures Valid()
      ensures jobs == old(jobs)[job.jobId := job] && engines == old(engines)[job.jobId := engine]
      ensures userJobs == old(userJobs)[userId := (if userId in old(userJobs) then old(userJobs)[userId] else []) + [job.jobId]]
    {
      jobs := jobs[job.jobId := job];
      engines := engines[job.jobId := engine];
      var list := if userId in userJobs then userJobs[userId] else [];
      userJobs := userJobs[userId := list + [job.jobId]];
    }

    /**
     * `get_job`: unknown ids and ids without an engine are errors; a remote
     * engine is polled and its record replaces the cached one; an automation
     * job is returned from the cache and nothing changes.
     */
    method GetJob(jobId: string, reply: PollReply, now: int) returns (r: Result<ScrapeJob, EngineError>)
      requires Valid()
      modifies this, EngineJob(jobId)
      ensures Valid()
      ensures engines == old(engines) && userJobs == old(userJobs) && jobs.Keys == old(jobs).Keys
      ensures r.Success? ==> r.value.jobId == jobId && jobId in jobs && jobs[jobId] == r.value
      ensures jobId !in old(jobs) ==> r == Failure(JobNotFound(jobId)) && jobs == old(jobs)
      ensures jobId in old(jobs) && jobId !in engines ==> r == Failure(NoEngine(jobId)) && jobs == old(jobs)
      ensures jobId in old(jobs) && jobId in engines && engines[jobId].PlaywrightKind? ==>
                r == Success(old(jobs)[jobId]) && jobs == old(jobs)
      ensures jobId in old(jobs) && jobId in engines && engines[jobId].BrightDataKind? ==>
                var bd := engines[jobId].bd;
                (jobId !in bd.jobs ==> r == Failure(JobNotFound(jobId)) && jobs == old(jobs))
                && (jobId in bd.jobs ==>
                      r == Success(bd.jobs[jobId]) && jobs == old(jobs)[jobId := bd.jobs[jobId]]
                      && bd.jobs[jobId].State() == PollState(old(bd.jobs[jobId].State()), bd.SnapshotOf(jobId), reply,
                                                             bd.jobs[jobId].platform, bd.jobs[jobId].url,
                                                             bd.jobs[jobId].userId, now))
      ensures r.Failure? ==> unchanged(EngineJob(jobId))
      ensures forall o :: o in old(EngineJob(jobId)) && IsTerminal(old(o.status)) ==> o.State() == old(o.State())
      ensures RemoteEngines() == old(RemoteEngines()) && EngineJobs() == old(EngineJobs())
    {
      if jobId !in jobs {
        return Failure(JobNotFound(jobId));
      }
      if jobId !in engines {
        return Failure(NoEngine(jobId));
      }
      var engine := engines[jobId];
      if EngineIsAsync(engine) {
        var polled := engine.bd.GetStatus(jobId, reply, now);
        if polled.Failure? {
          return Failure(polled.error);
        }
        jobs := jobs[jobId := polled.value];
        r := Success(polled.value);
      } else {
        r := Success(jobs[jobId]);
      }
    }

    /** `get_job_results`: the engine's answer, or an error when no engine is recorded for the id. */
    method GetJobResults(jobId: string, reply: PollReply, now: int) returns (r: Result<ScrapeResult, EngineError>)
      modifies EngineJob(jobId)
      ensures jobId !in engines ==> r == Failure(NoEngine(jobId))
      ensures jobId in engines && engines[jobId].PlaywrightKind? ==> r == engines[jobId].pw.GetResults(jobId)
      ensures jobId in engines && engines[jobId].BrightDataKind? ==>
                var bd := engines[jobId].bd;
                (jobId !in bd.jobs ==> r == Failure(JobNotFound(jobId)))
                && (jobId in bd.jobs ==>
                      bd.jobs[jobId].State() == PollState(old(bd.jobs[jobId].State()), bd.SnapshotOf(jobId), reply,
                                                          bd.jobs[jobId].platform, bd.jobs[jobId].url,
                                                          bd.jobs[jobId].userId, now)
                      && r == ResultsOutcome(jobId, bd.jobs[jobId].State()))
    {
      if jobId !in engines {
        return Failure(NoEngine(jobId));
      }
      match engines[jobId]
      case BrightDataKind(bd) =>
        r := bd.GetResults(jobId, reply, now);
      case PlaywrightKind(pw) =>
        r := pw.GetResults(jobId);
    }

    /** The ids `list_user_jobs` visits: the user's window of recent ids, newest first. */
    function Candidates(userId: string, limit: int): (c: seq<string>)
      reads this
      ensures limit > 0 ==> |c| <= limit
    {
      Reverse(RecentWindow(if userId in userJobs then userJobs[userId] else [], limit))
    }

    /**
     * Whether `get_job` of `jobId` returns a job rather than raising: the id
     * is known, has an engine, and a remote engine knows it too.
     */
    ghost predicate Findable(jobId: string)
      reads this, RemoteEngines()
    {
      jobId in jobs && jobId in engines && (engines[jobId].PlaywrightKind? || jobId in engines[jobId].bd.jobs)
    }

    /** The cached record of `jobId` and the one its remote engine keeps. */
    ghost function Records(jobId: string): set<ScrapeJob>
      reads this, RemoteEngines()
    {
      (if jobId in jobs then {jobs[jobId]} else {}) + EngineJob(jobId)
    }

    /** What a lookup of `jobId` depends on in the current state, when it returns a job. */
    ghost function ViewOf(jobId: string): (v: Option<LookupView>)
      reads this, RemoteEngines(), Records(jobId)
      ensures v.Some? <==> Findable(jobId)
    {
      if !Findable(jobId) then None
      else if engines[jobId].PlaywrightKind? then Some(Cached(jobs[jobId].status))
      else
        var bd := engines[jobId].bd;
        var j := bd.jobs[jobId];
        Some(Remote(j.State(), bd.SnapshotOf(jobId), j.platform, j.url, j.userId))
    }

    /**
     * The status `get_job` of `jobId` would report in the current state, if
     * it returns a job: the cached status of an automation job, or the status
     * a poll with `reply` leaves a remote job in.
     */
    ghost function LookupStatus(jobId: string, reply: PollReply, now: int): (s: Option<JobStatus>)
      reads this, RemoteEngines(), Records(jobId)
      ensures s.Some? <==> Findable(jobId)
    {
      SeenStatus(ViewOf(jobId), reply, now)
    }

    /** A job `get_job` has returned: the cache holds the record a remote engine keeps. */
    ghost predicate Settled(jobId: string)
      reads this, RemoteEngines()
    {
      Findable(jobId) && (engines[jobId].BrightDataKind? ==> jobs[jobId] == engines[jobId].bd.jobs[jobId])
    }

    /**
     * `get_job` as `list_user_jobs` sees it: it returns exactly when the id is
     * findable, with the status `LookupStatus` predicted; it keeps that
     * prediction for this id and reply and for every other id, and keeps
     * the cache entry of every job already returned.
     */
    method LookupJob(jobId: string, reply: PollReply, now: int) returns (got: Result<ScrapeJob, EngineError>)
      requires Valid()
      modifies this, EngineJob(jobId)
      ensures Valid()
      ensures engines == old(engines) && userJobs == old(userJobs) && jobs.Keys == old(jobs).Keys
      ensures RemoteEngines() == old(RemoteEngines()) && EngineJobs() == old(EngineJobs())
      ensures forall id :: Findable(id) <==> old(Findable(id))
      ensures got.Success? <==> old(Findable(jobId))
      ensures got.Success? ==> got.value.jobId == jobId && jobId in jobs && jobs[jobId] == got.value && Settled(jobId)
                               && old(LookupStatus(jobId, reply, now)) == Some(got.value.status)
      ensures LookupStatus(jobId, reply, now) == old(LookupStatus(jobId, reply, now))
      ensures forall x :: x != jobId && x in jobs ==> jobs[x] == old(jobs[x])
      ensures old(Settled(jobId)) ==> jobs[jobId] == old(jobs[jobId])
      ensures forall o: ScrapeJob :: old(allocated(o)) && o.jobId != jobId ==> unchanged(o)
      ensures forall o: ScrapeJob :: old(allocated(o)) && IsTerminal(old(o.status)) ==> o.status == old(o.status)
    {
      got := GetJob(jobId, reply, now);
      if jobId in engines && engines[jobId].BrightDataKind? && jobId in engines[jobId].bd.jobs {
        var j := engines[jobId].bd.jobs[jobId];
        PollStatusIdempotent(old(j.State()), engines[jobId].bd.SnapshotOf(jobId), reply, j.platform, j.url, j.userId, now);
      }
    }

    /**
     * One step of `list_user_jobs`: `get_job`, with a failed lookup skipped
     * and a job whose status does not pass the filter left out. `seen` is the
     * status the lookup returned, if it returned a job.
     */
    method LookupFiltered(jobId: string, statusFilter: Option<JobStatus>, reply: PollReply, now: int)
      returns (found: Option<ScrapeJob>, ghost seen: Option<JobStatus>)
      requires Valid()
      modifies this, EngineJob(jobId)
      ensures Valid()
      ensures engines == old(engines) && userJobs == old(userJobs) && jobs.Keys == old(jobs).Keys
      ensures RemoteEngines() == old(RemoteEngines()) && EngineJobs() == old(EngineJobs())
      ensures forall id :: Findable(id) <==> old(Findable(id))
      ensures seen.Some? <==> old(Findable(jobId))
      ensures found.Some? <==> seen.Some? && Passes(statusFilter, seen.value)
      ensures found.Some? ==> found.value.jobId == jobId && jobId in jobs && jobs[jobId] == found.value
                              && found.value.status == seen.value && Settled(jobId)
      ensures seen == old(LookupStatus(jobId, reply, now))
      ensures seen.Some? ==> jobId in jobs && jobs[jobId].status == seen.value
      ensures LookupStatus(jobId, reply, now) == old(LookupStatus(jobId, reply, now))
      ensures forall x :: x != jobId ==> ViewOf(x) == old(ViewOf(x))
      ensures forall x :: old(Settled(x)) ==> Settled(x) && jobs[x] == old(jobs[x])
      ensures forall o: ScrapeJob :: old(allocated(o)) && IsTerminal(old(o.status)) ==> o.status == old(o.status)
    {
      var got := LookupJob(jobId, reply, now);
      forall x | x != jobId && x in engines && engines[x].BrightDataKind?
        ensures engines[x].bd.jobs == old(engines[x].bd.jobs)
        ensures engines[x].bd.snapshotMap == old(engines[x].bd.snapshotMap)
        ensures x in engines[x].bd.jobs ==> unchanged(engines[x].bd.jobs[x])
      {
        assert engines[x].bd in old(RemoteEngines());
      }
      forall x | x != jobId && x in jobs
        ensures unchanged(jobs[x])
      {
      }
      seen := if got.Success? then Some(got.value.status) else None;
      if got.Success? && (statusFilter.None? || got.value.status == statusFilter.value) {
        found := Some(got.value);
      } else {
        found := None;
      }
    }

    /** One iteration of `list_user_jobs`: look up candidate `i` and append its job if it is kept. */
    method Visit(c: seq<string>, ghost known: set<string>, ghost want: seq<Option<JobStatus>>,
                 statusFilter: Option<JobStatus>, i: nat, r0: seq<ScrapeJob>, ghost picked0: seq<nat>,
                 ghost seen0: seq<Option<JobStatus>>, replies: string -> PollReply, now: int)
      returns (r: seq<ScrapeJob>, ghost picked: seq<nat>, ghost seen: seq<Option<JobStatus>>)
      requires Valid() && i < |c| && |want| == |c|
      requires forall j :: 0 <= j < |c| ==> (Findable(c[j]) <==> c[j] in known)
      requires Tracked(c, jobs.Keys, known, statusFilter, i, r0, picked0, seen0)
      requires forall j :: 0 <= j < |c| ==> LookupStatus(c[j], replies(c[j]), now) == want[j]
      requires forall j :: 0 <= j < i ==> seen0[j] == want[j]
      requires statusFilter.Some? && IsTerminal(statusFilter.value) ==>
                 forall k :: 0 <= k < |r0| ==> r0[k].status == statusFilter.value
      requires forall k :: 0 <= k < |r0| ==> Settled(r0[k].jobId) && jobs[r0[k].jobId] == r0[k]
      modifies this, EngineJob(c[i])
      ensures Valid()
      ensures engines == old(engines) && userJobs == old(userJobs) && jobs.Keys == old(jobs).Keys
      ensures EngineJobs() == old(EngineJobs())
      ensures forall j :: 0 <= j < |c| ==> (Findable(c[j]) <==> c[j] in known)
      ensures Tracked(c, jobs.Keys, known, statusFilter, i + 1, r, picked, seen)
      ensures seen == seen0 + [old(LookupStatus(c[i], replies(c[i]), now))]
      ensures forall x :: x != c[i] ==> ViewOf(x) == old(ViewOf(x))
      ensures forall j :: 0 <= j < |c| ==> LookupStatus(c[j], replies(c[j]), now) == want[j]
      ensures forall j :: 0 <= j < i + 1 ==> seen[j] == want[j]
      ensures statusFilter.Some? && IsTerminal(statusFilter.value) ==>
                forall k :: 0 <= k < |r| ==> r[k].status == statusFilter.value
      ensures forall k :: 0 <= k < |r| ==> Settled(r[k].jobId) && jobs[r[k].jobId] == r[k]
    {
      var found, s := LookupFiltered(c[i], statusFilter, replies(c[i]), now);
      forall j | 0 <= j < |c| && c[j] != c[i]
        ensures LookupStatus(c[j], replies(c[j]), now) == old(LookupStatus(c[j], replies(c[j]), now))
      {
        assert ViewOf(c[j]) == old(ViewOf(c[j]));
      }
      TrackedStep(c, jobs.Keys, known, statusFilter, i, r0, picked0, seen0, found, s);
      r, picked, seen := r0, picked0, seen0 + [s];
      if found.Some? {
        r := r + [found.value];
        picked := picked + [i];
      }
    }

    /**
     * `list_user_jobs`: looks up each candidate id newest first, skipping
     * those whose lookup fails and those whose status does not match the
     * filter. `picked` names the candidate each returned job came from.
     */
    method ListUserJobs(userId: string, statusFilter: Option<JobStatus>, limit: int,
                        replies: string -> PollReply, now: int)
      returns (r: seq<ScrapeJob>, ghost picked: seq<nat>, ghost seen: seq<Option<JobStatus>>)
      requires Valid()
      modifies this, EngineJobs()
      ensures Valid()
      ensures engines == old(engines) && userJobs == old(userJobs) && jobs.Keys == old(jobs).Keys
      ensures var c := old(Candidates(userId, limit));
              |picked| == |r| <= |c| && |seen| == |c|
              && (forall k :: 0 <= k < |r| ==> picked[k] < |c| && r[k].jobId == c[picked[k]] && c[picked[k]] in jobs)
              && (forall k, l :: 0 <= k < l < |r| ==> picked[k] < picked[l])
              && (forall i :: 0 <= i < |c| ==> (seen[i].Some? <==> old(Findable(c[i]))))
              && (forall i :: 0 <= i < |c| ==> (i in picked <==> seen[i].Some? && Passes(statusFilter, seen[i].value)))
      ensures var c := old(Candidates(userId, limit));
              (forall i :: 0 <= i < |c| ==> seen[i] == old(LookupStatus(c[i], replies(c[i]), now)))
              && (forall k :: 0 <= k < |r| ==> r[k] == jobs[c[picked[k]]])
      ensures statusFilter.None? ==>
                var c := old(Candidates(userId, limit));
                forall i :: 0 <= i < |c| ==> (i in picked <==> old(Findable(c[i])))
      ensures limit > 0 ==> |r| <= limit
      ensures statusFilter.Some? && IsTerminal(statusFilter.value) ==>
                forall k :: 0 <= k < |r| ==> r[k].status == statusFilter.value
    {
      var c := Candidates(userId, limit);
      ghost var known := set id | id in c && Findable(id);
      ghost var want := seq(|c|, j requires 0 <= j < |c| reads * =>
                                        LookupStatus(c[j], replies(c[j]), now));
      assert forall j :: 0 <= j < |c| ==> (c[j] in known <==> old(Findable(c[j])));
      r := [];
      picked := [];
      seen := [];
      var i: nat := 0;
      while i < |c|
        invariant 0 <= i <= |c|
        invariant Valid()
        invariant engines == old(engines) && userJobs == old(userJobs) && jobs.Keys == old(jobs).Keys
        invariant EngineJobs() == old(EngineJobs())
        invariant forall j :: 0 <= j < |c| ==> (Findable(c[j]) <==> c[j] in known)
        invariant Tracked(c, old(jobs).Keys, known, statusFilter, i, r, picked, seen)
        invariant statusFilter.Some? && IsTerminal(statusFilter.value) ==>
                    forall k :: 0 <= k < |r| ==> r[k].status == statusFilter.value
        invariant forall k :: 0 <= k < |r| ==> Settled(r[k].jobId) && jobs[r[k].jobId] == r[k]
        invariant forall j :: 0 <= j < |c| ==> LookupStatus(c[j], replies(c[j]), now) == want[j]
        invariant forall j :: 0 <= j < i ==> seen[j] == want[j]
      {
        r, picked, seen := Visit(c, known, want, statusFilter, i, r, picked, seen, replies, now);
        i := i + 1;
      }
      assert Tracked(c, old(jobs).Keys, known, statusFilter, |c|, r, picked, seen);
      assert statusFilter.None? ==> forall j :: 0 <= j < |c| ==> (j in picked <==> c[j] in known);
    }

    /** `cancel_job`: false when no engine is recorded for the id, else the engine's answer. */
    method CancelJob(jobId: string, now: int) returns (ok: bool)
      modifies EngineJob(jobId)
      ensures jobId !in engines || engines[jobId].PlaywrightKind? ==> !ok
      ensures jobId in engines && engines[jobId].BrightDataKind? ==>
                var bd := engines[jobId].bd;
                (ok <==> jobId in bd.jobs && !IsTerminal(old(bd.jobs[jobId].status)))
                && (jobId in bd.jobs ==> bd.jobs[jobId].State() == CancelState(old(bd.jobs[jobId].State()), now))
    {
      if jobId !in engines {
        return false;
      }
      match engines[jobId]
      case BrightDataKind(bd) =>
        ok := bd.CancelJob(jobId, now);
      case PlaywrightKind(pw) =>
        ok := pw.CancelJob(jobId);
    }

    /** The ids `cleanup_old_jobs` evicts: finished jobs last updated before the cutoff. */
    function Evictable(cutoff: int): (e: set<string>)
      reads this, jobs.Values
      ensures e <= jobs.Keys
      ensures forall id :: id in e ==> IsTerminal(jobs[id].status) && jobs[id].updatedAt < cutoff
    {
      set id | id in jobs && IsTerminal(jobs[id].status) && jobs[id].updatedAt < cutoff
    }

    /**
     * `_remove_job`: the id leaves the job and engine maps and its first
     * occurrence leaves its owner's list; everything else is unchanged.
     */
    method RemoveJob(jobId: string)
      modifies this
      ensures jobs == old(jobs) - {jobId} && engines == old(engines) - {jobId}
      ensures userJobs.Keys == old(userJobs).Keys
      ensures forall u :: u in userJobs ==>
                userJobs[u] == if jobId in old(jobs) && old(jobs)[jobId].userId == u
                               then RemoveFirst(old(userJobs)[u], jobId) else old(userJobs)[u]
    {
      var job := if jobId in jobs then Some(jobs[jobId]) else None;
      jobs := jobs - {jobId};
      engines := engines - {jobId};
      if job.Some? {
        var owner := job.value.userId;
        if owner in userJobs && jobId in userJobs[owner] {
          userJobs := userJobs[owner := RemoveFirst(userJobs[owner], jobId)];
        }
      }
    }

    /** The first pass of `cleanup_old_jobs`: collect the evictable ids. */
    method CollectEvictable(cutoff: int) returns (toRemove: set<string>)
      ensures toRemove == Evictable(cutoff)
    {
      toRemove := {};
      var todo := jobs.Keys;
      while todo != {}
        invariant todo <= jobs.Keys
        invariant toRemove == set id | id in jobs.Keys - todo && IsTerminal(jobs[id].status) && jobs[id].updatedAt < cutoff
        decreases |todo|
      {
        var id :| id in todo;
        if IsTerminal(jobs[id].status) && jobs[id].updatedAt < cutoff {
          toRemove := toRemove + {id};
        }
        todo := todo - {id};
      }
    }

    /** One removal of the second pass, with what has been removed so far. */
    method RemoveCounted(id: string, ghost done: set<string>, ghost owners: map<string, ScrapeJob>,
                         ghost origEngines: map<string, Engine>, ghost origUsers: map<string, seq<string>>)
      requires id !in done && id in owners
      requires jobs == owners - done && engines == origEngines - done && userJobs.Keys == origUsers.Keys
      requires forall u :: u in userJobs ==> userJobs[u] == DropFirsts(origUsers[u], OwnedBy(done, owners, u))
      modifies this
      ensures jobs == owners - (done + {id}) && engines == origEngines - (done + {id})
      ensures userJobs.Keys == origUsers.Keys
      ensures forall u :: u in userJobs ==>
                userJobs[u] == DropFirsts(origUsers[u], OwnedBy(done + {id}, owners, u))
    {
      ghost var before := userJobs;
      RemoveJob(id);
      OwnedByStepAll(before, userJobs, origUsers, done, id, owners);
      MapMinusStep(owners, done, id);
      MapMinusStep(origEngines, done, id);
    }

    /**
     * The second pass of `cleanup_old_jobs`: remove each collected id. Each
     * user's list loses one copy of each removed id that user owns.
     */
    method RemoveAll(toRemove: set<string>)
      requires toRemove <= jobs.Keys
      modifies this
      ensures jobs == old(jobs) - toRemove && engines == old(engines) - toRemove
      ensures userJobs.Keys == old(userJobs).Keys
      ensures forall u :: u in userJobs ==> userJobs[u] == DropFirsts(old(userJobs)[u], OwnedBy(toRemove, old(jobs), u))
    {
      ghost var owners := jobs;
      ghost var done: set<string> := {};
      var rest := toRemove;
      OwnedByNothing(owners);
      forall u | u in userJobs
        ensures userJobs[u] == DropFirsts(old(userJobs)[u], OwnedBy(done, owners, u))
      {
        DropFirstsNothing(userJobs[u]);
      }
      while rest != {}
        invariant rest <= toRemove && done == toRemove - rest
        invariant jobs == owners - done && engines == old(engines) - done
        invariant userJobs.Keys == old(userJobs).Keys
        invariant forall u :: u in userJobs ==>
                    userJobs[u] == DropFirsts(old(userJobs)[u], OwnedBy(done, owners, u))
        decreases |rest|
      {
        var id :| id in rest;
        RemoveCounted(id, done, owners, old(engines), old(userJobs));
        done := done + {id};
        rest := rest - {id};
      }
      assert done == toRemove;
    }

    /** `RemoveAll` on a valid manager, which stays valid. */
    method EvictAll(toRemove: set<string>)
      requires Valid() && toRemove <= jobs.Keys
      modifies this
      ensures Valid()
      ensures jobs == old(jobs) - toRemove && engines == old(engines) - toRemove
      ensures userJobs.Keys == old(userJobs).Keys
      ensures forall u :: u in userJobs ==> userJobs[u] == DropFirsts(old(userJobs)[u], OwnedBy(toRemove, old(jobs), u))
    {
      RemotesKeyedMinus(engines, toRemove);
      JobsKeyedMinus(jobs, toRemove);
      RemoveAll(toRemove);
      assert JobsKeyed(jobs) && RemotesKeyed(engines);
    }

    /**
     * `cleanup_old_jobs`: evicts exactly the finished jobs last updated more
     * than `maxAgeHours` before `now`; pending and running jobs always stay.
     * Each user's list loses one copy of each evicted id it holds.
     */
    method CleanupOldJobs(maxAgeHours: int, now: int)
      requires Valid()
      modifies this
      ensures Valid()
      ensures var e := old(Evictable(now - maxAgeHours * 3600));
              jobs == old(jobs) - e && engines == old(engines) - e
              && userJobs.Keys == old(userJobs).Keys
              && forall u :: u in userJobs ==> userJobs[u] == DropFirsts(old(userJobs)[u], OwnedBy(e, old(jobs), u))
      ensures forall id :: id in old(jobs) && !IsTerminal(old(jobs)[id].status) ==> id in jobs
    {
      ghost var e := Evictable(now - maxAgeHours * 3600);
      var toRemove := CollectEvictable(now - maxAgeHours * 3600);
      assert toRemove == e;
      EvictAll(toRemove);
    }

    function Statuses(): (m: map<string, JobStatus>)
      reads this, jobs.Values
      ensures m.Keys == jobs.Keys
    {
      map id | id in jobs :: jobs[id].status
    }

    /** `get_stats`: the job total, one count per status, and the number of users ever seen. */
    method GetStats() returns (s: Stats)
      ensures s.totalJobs == |jobs| && s.totalUsers == |userJobs|
      ensures s.pending == CountOf(Statuses(), Pending) && s.running == CountOf(Statuses(), Running)
      ensures s.completed == CountOf(Statuses(), Completed) && s.failed == CountOf(Statuses(), Failed)
      ensures s.pending + s.running + s.completed + s.failed == s.totalJobs
    {
      var m := Statuses();
      var pending, running, completed, failed := 0, 0, 0, 0;
      var todo := jobs.Keys;
      ghost var seen: set<string> := {};
      CountsPartitionIn(m, seen);
      while todo != {}
        invariant todo <= jobs.Keys && seen == jobs.Keys - todo
        invariant pending == CountIn(m, seen, Pending) && running == CountIn(m, seen, Running)
        invariant completed == CountIn(m, seen, Completed) && failed == CountIn(m, seen, Failed)
        decreases |todo|
      {
        var id :| id in todo;
        CountAddAll(m, seen, id);
        match m[id] {
          case Pending => pending := pending + 1;
          case Running => running := running + 1;
          case Completed => completed := completed + 1;
          case Failed => failed := failed + 1;
        }
        seen := seen + {id};
        todo := todo - {id};
      }
      assert seen == m.Keys;
      CountsPartition(m);
      assert |m| == |jobs| by {
        assert |m.Keys| == |m| && |jobs.Keys| == |jobs|;
      }
      s := Stats(|jobs|, pending, running, completed, failed, |userJobs|);
    }
  }
}
