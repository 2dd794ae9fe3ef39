/**
 * Browser profiles and the registry of live sessions. A profile is a
 * directory named after its user under the manager's base directory; a
 * session is a launched driver and context, tracked in one registry shared
 * by every manager until it is unregistered or all sessions are cleaned up.
 */
module Sessions {
  import opened Wrappers
  import opened Text
  import opened Browser

  /** A path as `pathlib` holds it: rooted or not, and its components. */
  datatype Path = Path(absolute: bool, parts: seq<string>)

  /** The segments that survive parsing: empty and `.` segments vanish. */
  function Components(segs: seq<string>): (r: seq<string>)
    ensures |r| <= |segs|
    ensures forall k :: 0 <= k < |r| ==> r[k] != "" && r[k] != "."
  {
    if |segs| == 0 then []
    else (if segs[0] == "" || segs[0] == "." then [] else [segs[0]]) + Components(segs[1..])
  }

  /** `Path(s)`: a leading `/` roots the path. */
  function ParsePath(s: string): Path
  {
    Path(|s| > 0 && s[0] == '/', Components(Split(s, '/')))
  }

  /** `base / name`: a rooted `name` replaces `base`; otherwise its components are appended. */
  function JoinPath(base: Path, name: string): Path
  {
    var p := ParsePath(name);
    if p.absolute then p else Path(base.absolute, base.parts + p.parts)
  }

  /** A name that is one path component of its own and names an entry below its directory, not the directory's parent. */
  predicate PlainName(n: string)
  {
    n != "" && n != "." && n != ".." && '/' !in n
  }

  /** A plain name lands directly below the base directory. */
  lemma JoinPlainName(base: Path, n: string)
    requires PlainName(n)
    ensures JoinPath(base, n) == Path(base.absolute, base.parts + [n])
  {
    SplitNoSep(n, '/');
    assert Components([n]) == [n] + Components([]);
  }

  /** A name starting with `/` escapes the base directory: the base plays no part. */
  lemma RootedNameIgnoresBase(b1: Path, b2: Path, n: string)
    requires |n| > 0 && n[0] == '/'
    ensures JoinPath(b1, n) == JoinPath(b2, n) == ParsePath(n)
  {
  }

  /** An empty name names the base directory itself. */
  lemma EmptyNameIsBase(base: Path)
    ensures JoinPath(base, "") == base
  {
    assert Split("", '/') == [""];
    assert Components([""]) == [] + Components([]);
  }

  /** `p.parent`: the root and the current directory are their own parents. */
  function Parent(p: Path): (q: Path)
    ensures q.absolute == p.absolute && q.parts <= p.parts
    ensures |p.parts| > 0 ==> |q.parts| == |p.parts| - 1
  {
    if |p.parts| == 0 then p else Path(p.absolute, p.parts[..|p.parts| - 1])
  }

  /** `q` is `p` or lies somewhere below it. */
  predicate Under(q: Path, p: Path)
  {
    q.absolute == p.absolute && p.parts <= q.parts
  }

  /** `q` is an entry directly inside `p`. */
  predicate ChildOf(q: Path, p: Path)
  {
    Under(q, p) && |q.parts| == |p.parts| + 1
  }

  /** The directories and files on disk. The root and the working directory always exist, as directories. */
  class Disk {
    var dirs: set<Path>
    var files: set<Path>

    constructor (dirs: set<Path>, files: set<Path>)
      ensures this.dirs == dirs && this.files == files
    {
      this.dirs := dirs;
      this.files := files;
    }

    /** Everything on disk hangs below a directory that is on disk too. */
    ghost predicate Valid()
      reads this
    {
      forall q :: q in dirs + files ==> q.parts != [] && IsDir(Parent(q))
    }

    predicate Exists(p: Path)
      reads this
    {
      p.parts == [] || p in dirs || p in files
    }

    predicate IsDir(p: Path)
      reads this
    {
      p.parts == [] || p in dirs
    }

    /**
     * `p.mkdir(exist_ok=True)`: an existing directory is fine; a file in the
     * way, or a parent that is missing or not a directory, raises.
     */
    method MkdirExistOk(p: Path) returns (r: Result<bool, string>)
      requires Valid()
      modifies this
      ensures Valid()
      ensures r.Success? <==> old(IsDir(p)) || (old(IsDir(Parent(p))) && !old(Exists(p)))
      ensures r.Success? ==> IsDir(p)
      ensures files == old(files)
      ensures dirs == if r.Success? then old(dirs) + (if p.parts == [] then {} else {p}) else old(dirs)
    {
      if IsDir(p) {
        return Success(false);
      }
      if Exists(p) {
        return Failure("File exists");
      }
      if !IsDir(Parent(p)) {
        return Failure("No such file or directory");
      }
      dirs := dirs + {p};
      r := Success(true);
    }

    /**
     * `shutil.rmtree(p)`: everything at or below a directory goes; a file
     * raises and nothing changes. The root and the working directory lose
     * their contents, and removing the directory itself then raises.
     */
    method RemoveTree(p: Path) returns (r: Result<bool, string>)
      requires Valid() && Exists(p)
      modifies this
      ensures Valid()
      ensures !old(IsDir(p)) ==> r.Failure? && unchanged(this)
      ensures old(IsDir(p)) ==>
                dirs == (set q | q in old(dirs) && !Under(q, p)) && files == (set q | q in old(files) && !Under(q, p))
      ensures r.Success? <==> p in old(dirs) && p.parts != []
    {
      if !IsDir(p) {
        return Failure("Not a directory");
      }
      dirs := set q | q in dirs && !Under(q, p);
      files := set q | q in files && !Under(q, p);
      if p.parts == [] {
        return Failure("Cannot remove the directory itself");
      }
      r := Success(true);
    }
  }

  /** The last component of a path, `p.name`. */
  function Name(p: Path): string
  {
    if |p.parts| == 0 then "" else p.parts[|p.parts| - 1]
  }

  /** The names of the directories directly inside `base`. */
  function SubdirNames(dirs: set<Path>, base: Path): set<string>
  {
    set q | q in dirs && ChildOf(q, base) :: Name(q)
  }

  /** A plain name is listed exactly when that directory exists directly under `base`. */
  lemma {:induction false} SubdirNamesExact(dirs: set<Path>, base: Path, n: string)
    requires PlainName(n)
    ensures n in SubdirNames(dirs, base) <==> Path(base.absolute, base.parts + [n]) in dirs
  {
    var p := Path(base.absolute, base.parts + [n]);
    if n in SubdirNames(dirs, base) {
      var q :| q in dirs && ChildOf(q, base) && Name(q) == n;
      assert q.parts == q.parts[..|base.parts|] + [q.parts[|base.parts|]];
      assert q == p;
    }
    if p in dirs {
      assert ChildOf(p, base) && Name(p) == n;
    }
  }

  /** What the registry holds per session. */
  datatype SessionRecord = SessionRecord(driver: Driver, context: BrowserContext, userId: string, createdAt: int)

  /** `f"{user_id}_{threading.get_ident()}_{time.time()}"`, with the clock reading given as its rendering. */
  function SessionId(userId: string, ident: int, stamp: string): (r: string)
    ensures |r| > |userId| + 1 && r[..|userId|] == userId && r[|userId|] == '_'
  {
    userId + "_" + IntToString(ident) + "_" + stamp
  }

  /** For a user id without `_`, the owner can be read back as the first `_`-segment of the session id. */
  lemma SessionIdOwner(userId: string, ident: int, stamp: string)
    requires '_' !in userId
    ensures Split(SessionId(userId, ident, stamp), '_')[0] == userId
  {
    var rest := IntToString(ident) + "_" + stamp;
    assert SessionId(userId, ident, stamp) == userId + ['_'] + rest;
    SplitPrefix(userId, rest, '_');
  }

  /** The class-level `_active_sessions` dict, shared by every manager. */
  class SessionRegistry {
    var active: map<string, SessionRecord>

    constructor ()
      ensures active == map[] && Valid()
    {
      active := map[];
    }

    /** Each entry holds the driver and context launched for it alone. */
    ghost predicate Valid()
      reads this
    {
      Separate(active)
    }

    ghost function Objects(): set<object>
      reads this
    {
      (set sid | sid in active :: active[sid].context as object) + (set sid | sid in active :: active[sid].driver as object)
    }

    /** Whether `o` is held by some entry. */
    ghost predicate Holds(o: object)
      reads this
    {
      exists sid :: sid in active && (active[sid].context == o || active[sid].driver == o)
    }

    /** Storing a freshly launched session, replacing any record already under its id. */
    method Register(sid: string, rec: SessionRecord)
      requires Valid() && !Holds(rec.context) && !Holds(rec.driver)
      modifies this
      ensures Valid()
      ensures active == old(active)[sid := rec]
    {
      active := active[sid := rec];
    }

    /** `unregister_session`: removes the entry if present, else does nothing. */
    method Unregister(sid: string)
      requires Valid()
      modifies this
      ensures Valid()
      ensures active == old(active) - {sid}
      ensures sid !in old(active) ==> active == old(active)
    {
      if sid in active {
        active := active - {sid};
      }
    }

    /**
     * `cleanup_all_sessions`: nothing to do for an empty registry. Otherwise
     * every entry of a snapshot gets its context closed and then, unless
     * closing raised, its driver stopped; a failure skips the rest of that
     * entry only. The registry is empty afterwards.
     */
    method CleanupAll()
      requires Valid()
      modifies this, Objects()
      ensures active == map[] && Valid()
      ensures forall sid :: sid in old(active) ==>
                CleanedUp(old(active)[sid], old(active[sid].context.closeCalls), old(active[sid].context.closed),
                          old(active[sid].driver.stopCalls), old(active[sid].driver.stopped))
    {
      if active == map[] {
        return;
      }
      var ids, recs := Entries(active);
      CleanupEntries(recs, Objects());
      active := map[];
    }
  }

  /** No two entries share a context or a driver. */
  ghost predicate Separate(m: map<string, SessionRecord>)
  {
    forall s1, s2 :: s1 in m && s2 in m && s1 != s2 ==> m[s1].context != m[s2].context && m[s1].driver != m[s2].driver
  }

  /**
   * An entry after its cleanup, against the counters it had before: one
   * more close of its context, which is then closed unless closing raised,
   * and only in that case one more stop of its driver.
   */
  ghost predicate CleanedUp(rec: SessionRecord, closeCalls0: nat, closed0: bool, stopCalls0: nat, stopped0: bool)
    reads rec.context, rec.driver
  {
    var ok := rec.context.closeFailure.None?;
    rec.context.closeCalls == closeCalls0 + 1 && rec.context.closed == (closed0 || ok)
    && rec.driver.stopCalls == stopCalls0 + (if ok then 1 else 0)
    && rec.driver.stopped == (stopped0 || (ok && rec.driver.stopFailure.None?))
  }

  /** `list(d.items())`: every entry once, in some order. */
  method Entries(m: map<string, SessionRecord>) returns (ids: seq<string>, recs: seq<SessionRecord>)
    ensures |ids| == |recs|
    ensures forall sid :: sid in m <==> sid in ids
    ensures forall k :: 0 <= k < |ids| ==> ids[k] in m && recs[k] == m[ids[k]]
    ensures forall k, l :: 0 <= k < l < |ids| ==> ids[k] != ids[l]
  {
    ids, recs := [], [];
    var todo := m.Keys;
    while todo != {}
      invariant todo <= m.Keys && |ids| == |recs|
      invariant forall sid :: sid in m <==> sid in ids || sid in todo
      invariant forall k :: 0 <= k < |ids| ==> ids[k] in m && ids[k] !in todo && recs[k] == m[ids[k]]
      invariant forall k, l :: 0 <= k < l < |ids| ==> ids[k] != ids[l]
      decreases |todo|
    {
      var sid :| sid in todo;
      ids, recs := ids + [sid], recs + [m[sid]];
      todo := todo - {sid};
    }
  }

  /** The loop of `cleanup_all_sessions` over its snapshot. */
  method CleanupEntries(recs: seq<SessionRecord>, ghost objs: set<object>)
    requires forall k, l :: 0 <= k < l < |recs| ==> recs[k].context != recs[l].context && recs[k].driver != recs[l].driver
    requires forall k :: 0 <= k < |recs| ==> recs[k].context in objs && recs[k].driver in objs
    modifies objs
    ensures forall k :: 0 <= k < |recs| ==>
              CleanedUp(recs[k], old(recs[k].context.closeCalls), old(recs[k].context.closed),
                        old(recs[k].driver.stopCalls), old(recs[k].driver.stopped))
  {
    var i := 0;
    while i < |recs|
      invariant 0 <= i <= |recs|
      invariant forall k :: 0 <= k < i ==>
                  CleanedUp(recs[k], old(recs[k].context.closeCalls), old(recs[k].context.closed),
                            old(recs[k].driver.stopCalls), old(recs[k].driver.stopped))
      invariant forall k :: i <= k < |recs| ==> unchanged(recs[k].context, recs[k].driver)
    {
      CleanupEntry(recs[i]);
      i := i + 1;
    }
  }

  /** The body of the cleanup loop for one entry. */
  method CleanupEntry(rec: SessionRecord)
    modifies rec.context, rec.driver
    ensures CleanedUp(rec, old(rec.context.closeCalls), old(rec.context.closed), old(rec.driver.stopCalls), old(rec.driver.stopped))
  {
    var closedOk := rec.context.Close();
    if closedOk {
      var stoppedOk := rec.driver.Stop();
    }
  }

  /** A manager of the profiles under `base`, registering its sessions in `registry`. */
  class SessionManager {
    const base: Path
    const disk: Disk
    const registry: SessionRegistry

    constructor (base: Path, disk: Disk, registry: SessionRegistry)
      ensures this.base == base && this.disk == disk && this.registry == registry
    {
      this.base := base;
      this.disk := disk;
      this.registry := registry;
    }

    /** `get_profile_dir`: `base_dir / user_id`, touching nothing on disk. */
    function GetProfileDir(userId: string): (p: Path)
      ensures PlainName(userId) ==> p == Path(base.absolute, base.parts + [userId]) && ChildOf(p, base)
    {
      if PlainName(userId) then JoinPlainName(base, userId); JoinPath(base, userId) else JoinPath(base, userId)
    }

    /** `profile_exists`: whether anything is at the profile path. */
    predicate ProfileExists(userId: string): (r: bool)
      reads disk
      ensures PlainName(userId) ==>
                (r <==> Path(base.absolute, base.parts + [userId]) in disk.dirs + disk.files)
    {
      disk.Exists(GetProfileDir(userId))
    }

    /**
     * `load_session`: a newly started driver and a newly launched context
     * (whose later `stop()` and `close()` fail as given) are recorded under a
     * session id built from the user, the thread and the clock, and returned
     * with it.
     */
    method LoadSession(userId: string, ident: int, stamp: string, createdAt: int,
                       stopFailure: Option<string>, closeFailure: Option<string>)
      returns (driver: Driver, context: BrowserContext, sessionId: string)
      requires registry.Valid()
      modifies registry
      ensures registry.Valid()
      ensures fresh(driver) && fresh(context) && !driver.stopped && !context.closed
      ensures sessionId == SessionId(userId, ident, stamp)
      ensures registry.active == old(registry.active)[sessionId := SessionRecord(driver, context, userId, createdAt)]
    {
      driver := new Driver(stopFailure);
      context := new BrowserContext(closeFailure);
      sessionId := SessionId(userId, ident, stamp);
      registry.Register(sessionId, SessionRecord(driver, context, userId, createdAt));
    }

    /** `unregister_session`, on the shared registry. */
    method UnregisterSession(sessionId: string)
      requires registry.Valid()
      modifies registry
      ensures registry.Valid()
      ensures registry.active == old(registry.active) - {sessionId}
    {
      registry.Unregister(sessionId);
    }

    /** `delete_session`: removes the profile tree when something is there; reports the outcome. */
    method DeleteSession(userId: string) returns (r: Result<bool, string>)
      requires disk.Valid()
      modifies disk
      ensures disk.Valid()
      ensures !old(ProfileExists(userId)) ==> r == Success(false) && unchanged(disk)
      ensures old(ProfileExists(userId)) && !old(disk.IsDir(GetProfileDir(userId))) ==> r.Failure? && unchanged(disk)
      ensures old(disk.IsDir(GetProfileDir(userId))) ==>
                var p := GetProfileDir(userId);
                disk.dirs == (set q | q in old(disk.dirs) && !Under(q, p))
                && disk.files == (set q | q in old(disk.files) && !Under(q, p))
                && !disk.Exists(p) == r.Success?
    {
      var p := GetProfileDir(userId);
      if !disk.Exists(p) {
        return Success(false);
      }
      r := disk.RemoveTree(p);
    }

    /** `list_profiles`: the subdirectory names of the base directory, or none when it is missing. */
    function ListProfiles(): (r: Result<set<string>, string>)
      requires disk.Valid()
      reads disk
      ensures !disk.Exists(base) ==> r == Success({})
      ensures disk.Exists(base) && !disk.IsDir(base) ==> r.Failure?
      ensures r.Success? ==> forall n :: PlainName(n) ==> (n in r.value <==> disk.IsDir(GetProfileDir(n)))
    {
      if !disk.Exists(base) then Success({})
      else if !disk.IsDir(base) then Failure("Not a directory")
      else
        var names := SubdirNames(disk.dirs, base);
        assert forall n :: PlainName(n) ==> (n in names <==> disk.IsDir(GetProfileDir(n))) by {
          forall n | PlainName(n)
            ensures n in names <==> disk.IsDir(GetProfileDir(n))
          {
            SubdirNamesExact(disk.dirs, base, n);
          }
        }
        Success(names)
    }
  }

  /** `SessionManager(base_dir)`: parses the base directory and creates it unless it is already a directory. */
  method NewSessionManager(baseDir: string, disk: Disk, registry: SessionRegistry)
    returns (r: Result<SessionManager, string>)
    requires disk.Valid()
    modifies disk
    ensures disk.Valid()
    ensures r.Success? ==> fresh(r.value) && r.value.base == ParsePath(baseDir) && r.value.disk == disk
                           && r.value.registry == registry && disk.IsDir(ParsePath(baseDir))
    ensures r.Success? <==> old(disk.IsDir(ParsePath(baseDir)))
                            || (old(disk.IsDir(Parent(ParsePath(baseDir)))) && !old(disk.Exists(ParsePath(baseDir))))
  {
    var base := ParsePath(baseDir);
    var made := disk.MkdirExistOk(base);
    if made.Failure? {
      return Failure(made.error);
    }
    var m := new SessionManager(base, disk, registry);
    r := Success(m);
  }
}
