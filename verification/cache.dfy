/**
 * The backend's disk cache: one file per username under `<app data>/cache`,
 * served while it is at most 300 whole seconds old. The file system is a map
 * from path text to file plus the set of directories that exist; the clock is
 * an integer count of milliseconds.
 */
module Cache {
  import opened Wrappers
  import opened Contribution

  type Path = string

  /** `PathBuf::join` on Unix: a component starting with '/' replaces the base
      entirely; otherwise one separator goes between them unless the base is
      empty or already ends in one. No component is inspected or cleaned. */
  function Join(base: Path, part: Path): Path {
    if |part| > 0 && part[0] == '/' then part
    else if |base| == 0 || base[|base| - 1] == '/' then base + part
    else base + "/" + part
  }

  const CacheDirName: string := "cache"
  const FileSuffix: string := "_contributions.json"

  /** The longest age, in whole seconds, at which a cache file is still served. */
  const MaxAgeSecs: nat := 300

  function CacheDir(appData: Path): Path {
    Join(appData, CacheDirName)
  }

  /** `get_cache_path` once the app data directory is known: the username is
      pasted into the file name as it is. */
  function CachePath(appData: Path, username: string): Path {
    Join(CacheDir(appData), username + FileSuffix)
  }

  /** `get_cache_path`: fails when the app data directory cannot be found. */
  function GetCachePath(appData: Result<Path, string>, username: string): (r: Result<Path, string>)
    ensures r.Success? <==> appData.Success?
    ensures r.Failure? ==> r.error == "Failed to get app data dir: " + appData.error
    // the username goes between the cache directory and the suffix, uncleaned
    ensures r.Success? && (|username| == 0 || username[0] != '/') ==>
      r.value == CacheDir(appData.value) + "/" + username + FileSuffix
    // a username starting with '/' discards the cache directory altogether
    ensures r.Success? && |username| > 0 && username[0] == '/' ==>
      r.value == username + FileSuffix
  {
    match appData
    case Success(dir) => Success(CachePath(dir, username))
    case Failure(e) => Failure("Failed to get app data dir: " + e)
  }

  /** `p` lies strictly inside directory `dir`, judged on the text of the paths. */
  predicate Under(p: Path, dir: Path) {
    |dir| < |p| && p[..|dir|] == dir && p[|dir|] == '/'
  }

  /** Every directory that must exist for a file at `p` to exist. */
  function Ancestors(p: Path): set<Path> {
    set i | 0 < i < |p| && p[i] == '/' :: p[..i]
  }

  /** What a cache file holds: the days it was written with, or something that
      cannot be read back as a list of days. */
  datatype Content = Stored(days: seq<Day>) | Unreadable(detail: string)

  /** A file: its modification time (absent when the platform cannot report
      it) and its content. */
  datatype File = File(mtime: Option<int>, content: Content)

  datatype FileSystem = FileSystem(dirs: set<Path>, files: map<Path, File>)

  /** Every file's enclosing directories exist. */
  ghost predicate WellFormed(fs: FileSystem) {
    forall p :: p in fs.files ==> Ancestors(p) <= fs.dirs
  }

  /** The freshness rule: whole seconds elapsed since `mtime` (truncated, as
      `as_secs` does) above 300 means expired. Without an mtime, or when the
      mtime lies in the future so that no elapsed time exists, the file counts
      as fresh. */
  function IsExpired(mtime: Option<int>, now: int): (expired: bool)
    ensures expired <==> mtime.Some? && now - mtime.value >= (MaxAgeSecs + 1) * 1000
  {
    match mtime
    case None => false
    case Some(m) => if now < m then false else (now - m) / 1000 > MaxAgeSecs
  }

  /** Why a cache read did not produce days. */
  datatype LoadError = NoAppDataDir(detail: string) | NotFound | Expired | Corrupt(detail: string)

  /** `load_from_cache`. An expired file is left where it is. */
  function Load(fs: FileSystem, appData: Result<Path, string>, username: string, now: int): (r: Result<seq<Day>, LoadError>)
    ensures appData.Failure? ==> r == Failure(NoAppDataDir("Failed to get app data dir: " + appData.error))
    ensures appData.Success? && CachePath(appData.value, username) !in fs.files ==> r == Failure(NotFound)
    ensures r.Success? <==>
      && appData.Success?
      && var path := CachePath(appData.value, username);
      && path in fs.files
      && !IsExpired(fs.files[path].mtime, now)
      && fs.files[path].content.Stored?
    ensures r.Success? ==> r.value == fs.files[CachePath(appData.value, username)].content.days
  {
    match GetCachePath(appData, username)
    case Failure(e) => Failure(NoAppDataDir(e))
    case Success(path) =>
      if path !in fs.files then Failure(NotFound)
      else
        var file := fs.files[path];
        if IsExpired(file.mtime, now) then Failure(Expired)
        else match file.content
          case Stored(days) => Success(days)
          case Unreadable(detail) => Failure(Corrupt(detail))
  }

  datatype SaveOutcome = SaveOutcome(result: Result<(), string>, fs: FileSystem)

  /** `save_to_cache`: creates the file's directories, then writes the days
      with the current time as the file's mtime. `fault` is the error the
      operating system reports for the directory creation or the write, if
      any; a fault leaves the file system as it was. */
  function Save(fs: FileSystem, appData: Result<Path, string>, username: string, days: seq<Day>, now: int,
                fault: Option<string>): (r: SaveOutcome)
    ensures r.result.Success? <==> appData.Success? && fault.None?
    ensures appData.Failure? ==> r.result == Failure("Failed to get app data dir: " + appData.error)
    ensures appData.Success? && fault.Some? ==> r.result == Failure(fault.value)
    ensures r.result.Failure? ==> r.fs == fs
    ensures r.result.Success? ==>
      r.fs.files == fs.files[CachePath(appData.value, username) := File(Some(now), Stored(days))]
    ensures fs.dirs <= r.fs.dirs
    ensures WellFormed(fs) ==> WellFormed(r.fs)
  {
    match GetCachePath(appData, username)
    case Failure(e) => SaveOutcome(Failure(e), fs)
    case Success(path) =>
      match fault
      case Some(e) => SaveOutcome(Failure(e), fs)
      case None =>
        SaveOutcome(Success(()), FileSystem(fs.dirs + Ancestors(path), fs.files[path := File(Some(now), Stored(days))]))
  }

  datatype ClearOutcome = ClearOutcome(result: Result<string, string>, fs: FileSystem)

  const ClearedMessage: string := "Cache cleared successfully"

  /** `clear_cache`: when the cache directory exists, everything inside it is
      removed and the directory itself is kept (removed and created again);
      when it does not exist nothing happens. `fault` is the error the
      operating system reports for the removal or the re-creation, if any; a
      fault leaves the file system as it was. */
  function Clear(fs: FileSystem, appData: Result<Path, string>, fault: Option<string>): (r: ClearOutcome)
    ensures appData.Failure? ==> r == ClearOutcome(Failure("Failed to get app data dir: " + appData.error), fs)
    ensures appData.Success? && CacheDir(appData.value) !in fs.dirs ==> r == ClearOutcome(Success(ClearedMessage), fs)
    ensures r.result.Success? ==> r.result.value == ClearedMessage
    ensures r.result.Failure? ==> r.fs == fs
    ensures appData.Success? ==>
      forall p :: p in fs.files && !Under(p, CacheDir(appData.value)) ==> p in r.fs.files && r.fs.files[p] == fs.files[p]
    ensures r.fs.files.Keys <= fs.files.Keys
    ensures appData.Success? && r.result.Success? ==>
      forall p :: p in r.fs.files && Under(p, CacheDir(appData.value)) ==> CacheDir(appData.value) !in fs.dirs
  {
    match appData
    case Failure(e) => ClearOutcome(Failure("Failed to get app data dir: " + e), fs)
    case Success(dir) =>
      var cacheDir := CacheDir(dir);
      if cacheDir !in fs.dirs then ClearOutcome(Success(ClearedMessage), fs)
      else match fault
        case Some(e) => ClearOutcome(Failure(e), fs)
        case None =>
          var fs' := FileSystem(set d | d in fs.dirs && !Under(d, cacheDir),
                                map p | p in fs.files && !Under(p, cacheDir) :: fs.files[p]);
          ClearOutcome(Success(ClearedMessage), fs')
  }

  /** After a successful clear, no file of a well-formed file system is left
      inside the cache directory, whether or not the directory existed. */
  lemma ClearEmptiesCacheDir(fs: FileSystem, appData: Result<Path, string>, fault: Option<string>)
    requires WellFormed(fs) && appData.Success?
    requires Clear(fs, appData, fault).result.Success?
    ensures forall p :: p in Clear(fs, appData, fault).fs.files ==> !Under(p, CacheDir(appData.value))
  {
  }

  /** Clearing keeps every remaining file's directories in place. */
  lemma ClearKeepsWellFormed(fs: FileSystem, appData: Result<Path, string>, fault: Option<string>)
    requires WellFormed(fs)
    ensures WellFormed(Clear(fs, appData, fault).fs)
  {
  }
}

/** Properties of the cache that relate several of its operations. */
module CacheProperties {
  import opened Wrappers
  import opened Contribution
  import opened Cache

  /** With an ordinary app data directory, the cache directory is `<app data>/cache`. */
  lemma CacheDirShape(appData: Path)
    requires |appData| > 0 && appData[|appData| - 1] != '/'
    ensures CacheDir(appData) == appData + "/cache"
  {
  }

  /** A username without any '/' is pasted verbatim between the cache
      directory and the file suffix, and the file lies inside the cache
      directory. */
  lemma CachePathRelative(appData: Path, username: string)
    requires '/' !in username
    ensures CachePath(appData, username) == CacheDir(appData) + "/" + username + FileSuffix
    ensures Under(CachePath(appData, username), CacheDir(appData))
  {
  }

  /** Distinct usernames without any '/' never share a cache file. */
  lemma CachePathInjective(appData: Path, u: string, v: string)
    requires '/' !in u && '/' !in v
    requires CachePath(appData, u) == CachePath(appData, v)
    ensures u == v
  {
    CachePathRelative(appData, u);
    CachePathRelative(appData, v);
    var prefix := CacheDir(appData) + "/";
    var pu := prefix + u + FileSuffix;
    var pv := prefix + v + FileSuffix;
    assert |u| == |v|;
    assert u == pu[|prefix|..|prefix| + |u|];
    assert v == pv[|prefix|..|prefix| + |v|];
  }

  /** The username is not sanitised: one starting with '/' replaces the whole
      path, so the file lands wherever it names. */
  lemma AbsoluteUsernameReplacesPath(appData: Path, username: string)
    requires |username| > 0 && username[0] == '/'
    ensures CachePath(appData, username) == username + FileSuffix
  {
  }

  /** A concrete escape: the username "/tmp/x" puts the cache file outside the
      cache directory. */
  lemma UsernameEscapesCacheDir()
    ensures CachePath("/home/ana/.local/share/gitpulse", "/tmp/x") == "/tmp/x_contributions.json"
    ensures !Under(CachePath("/home/ana/.local/share/gitpulse", "/tmp/x"), CacheDir("/home/ana/.local/share/gitpulse"))
  {
  }

  /** A concrete collision: two different usernames share one cache file. */
  lemma UsernamesCollide()
    ensures CachePath("/data", "octocat") == CachePath("/data", "/data/cache/octocat")
  {
  }

  /** Exactly 300 whole seconds is still fresh, even 300.999 s; 301 s is expired. */
  lemma FreshnessBoundary(m: int)
    ensures !IsExpired(Some(m), m + 300_000)
    ensures !IsExpired(Some(m), m + 300_999)
    ensures IsExpired(Some(m), m + 301_000)
  {
  }

  /** Once expired, a file stays expired as the clock moves on. */
  lemma ExpiryIsMonotone(mtime: Option<int>, now: int, later: int)
    requires now <= later && IsExpired(mtime, now)
    ensures IsExpired(mtime, later)
  {
  }

  /** Saving days and reading them back before 301 s have passed returns
      exactly those days (a clock that went backwards also reads them back). */
  lemma SaveThenLoad(fs: FileSystem, appData: Result<Path, string>, username: string, days: seq<Day>,
                     now: int, later: int)
    requires appData.Success? && later < now + (MaxAgeSecs + 1) * 1000
    ensures Load(Save(fs, appData, username, days, now, None).fs, appData, username, later) == Success(days)
  {
  }

  /** Reading them back 301 s or more later finds them expired. */
  lemma SaveThenLoadExpired(fs: FileSystem, appData: Result<Path, string>, username: string, days: seq<Day>,
                            now: int, later: int)
    requires appData.Success? && later >= now + (MaxAgeSecs + 1) * 1000
    ensures Load(Save(fs, appData, username, days, now, None).fs, appData, username, later) == Failure(Expired)
  {
  }

  /** Saving for one user changes no other user's cache read, when neither
      username holds a '/'. */
  lemma SaveLeavesOthers(fs: FileSystem, appData: Result<Path, string>, u: string, v: string, days: seq<Day>,
                         now: int, fault: Option<string>, later: int)
    requires u != v && '/' !in u && '/' !in v
    ensures Load(Save(fs, appData, u, days, now, fault).fs, appData, v, later) == Load(fs, appData, v, later)
  {
    if appData.Success? && CachePath(appData.value, u) == CachePath(appData.value, v) {
      CachePathInjective(appData.value, u, v);
    }
  }

  /** After a successful clear, no username without a '/' finds a cache file. */
  lemma ClearThenLoadMisses(fs: FileSystem, appData: Result<Path, string>, fault: Option<string>,
                            username: string, now: int)
    requires WellFormed(fs) && appData.Success? && Clear(fs, appData, fault).result.Success?
    requires '/' !in username
    ensures Load(Clear(fs, appData, fault).fs, appData, username, now) == Failure(NotFound)
  {
    ClearEmptiesCacheDir(fs, appData, fault);
    CachePathRelative(appData.value, username);
  }

  /** Clearing twice is clearing once: the second clear succeeds and changes nothing. */
  lemma ClearIdempotent(fs: FileSystem, appData: Result<Path, string>)
    requires appData.Success?
    ensures var once := Clear(fs, appData, None);
      Clear(once.fs, appData, None) == once
  {
  }
}
