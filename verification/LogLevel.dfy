/** The log level on its way from the configuration file, through the cache, to the logger. */
module LogLevel {
  type int32 = n: int | -0x8000_0000 <= n < 0x8000_0000
  type uint32 = n: int | 0 <= n < 0x1_0000_0000

  // IUcLogger::Severity
  const LOG_ALERT: int32 := 1
  const LOG_ERROR: int32 := 3
  const LOG_DEBUG: int32 := 7

  const DEFAULT_LOG_LEVEL: int32 := LOG_ERROR

  /** What reading the file gives: the number under uc.loglevel, or an exception. */
  datatype Content = Invalid | Level(n: int32)

  datatype File = Missing | Present(mtime: uint32, content: Content)

  function ToUInt32(n: int32): uint32 {
    if n < 0 then n + 0x1_0000_0000 else n
  }

  function ToInt32(u: uint32): (n: int32)
    ensures ToUInt32(n) == u
  {
    if u < 0x8000_0000 then u else u - 0x1_0000_0000
  }

  lemma LevelSurvivesCasts(n: int32)
    ensures ToInt32(ToUInt32(n)) == n
  {
  }

  /** What the cache holds; the time is 0 when nothing was read successfully last time. */
  datatype Cache = Cache(level: uint32, time: uint32)

  const EMPTY_CACHE := Cache(ToUInt32(DEFAULT_LOG_LEVEL), 0)

  function Load(c: Cache, f: File): Cache {
    match f
    case Missing => EMPTY_CACHE
    case Present(mtime, content) =>
      if mtime <= c.time then c
      else if content.Invalid? then EMPTY_CACHE
      else Cache(ToUInt32(content.n), mtime)
  }

  /** What reading the file now would give. */
  function FreshLevel(f: File): int32 {
    if f.Present? && f.content.Level? then f.content.n else DEFAULT_LOG_LEVEL
  }

  function LoadAll(files: seq<File>): Cache {
    if files == [] then EMPTY_CACHE else Load(LoadAll(files[..|files| - 1]), files[|files| - 1])
  }

  /** The logger's level after one setting: out-of-range levels are refused. */
  function Accept(level: int32, wanted: int32): int32 {
    if LOG_ALERT <= wanted <= LOG_DEBUG then wanted else level
  }

  /** The logger's level after a run of polls of the cache. */
  function Followed(files: seq<File>): int32 {
    if files == [] then LOG_ERROR
    else Accept(Followed(files[..|files| - 1]), ToInt32(LoadAll(files).level))
  }

  class UcConfig {
    var m_logLevel: uint32
    var m_fileModifyTime: uint32

    ghost function Contents(): Cache
      reads this
    {
      Cache(m_logLevel, m_fileModifyTime)
    }

    constructor ()
      ensures Contents() == EMPTY_CACHE == Cache(3, 0)
    {
      m_logLevel, m_fileModifyTime := ToUInt32(DEFAULT_LOG_LEVEL), 0;
    }

    /** True when a newer file was read; a missing or unreadable one restores the defaults. */
    method LoadConfig(file: File) returns (rtn: bool)
      modifies this
      ensures Contents() == Load(old(Contents()), file)
      ensures rtn <==> file.Present? && file.mtime > old(m_fileModifyTime) && file.content.Level?
      ensures rtn ==> m_fileModifyTime == file.mtime && ToInt32(m_logLevel) == file.content.n
      ensures !rtn ==> Contents() == old(Contents()) || Contents() == Cache(3, 0)
      ensures file.Missing? ==> Contents() == Cache(3, 0)
    {
      rtn := false;
      var failed := file.Missing?;
      if file.Present? && file.mtime > m_fileModifyTime {
        m_fileModifyTime := file.mtime;
        if file.content.Level? {
          m_logLevel := ToUInt32(file.content.n);
          rtn := true;
        } else {
          failed := true;
        }
      }
      if failed {
        m_logLevel, m_fileModifyTime := ToUInt32(DEFAULT_LOG_LEVEL), 0;
      }
    }

    method GetLogLevel() returns (level: uint32)
      ensures level == Contents().level
    {
      level := m_logLevel;
    }
  }

  class UcLogger {
    var m_logLevel: int32

    constructor ()
      ensures m_logLevel == LOG_ERROR == 3
    {
      m_logLevel := LOG_ERROR;
    }

    method SetLogLevel(logLevel: int32)
      modifies this
      ensures m_logLevel == Accept(old(m_logLevel), logLevel)
      ensures m_logLevel == if 1 <= logLevel <= 7 then logLevel else old(m_logLevel)
    {
      if logLevel >= LOG_ALERT && logLevel <= LOG_DEBUG {
        if m_logLevel != logLevel {
          m_logLevel := logLevel;
        }
      }
    }
  }

  class ServiceLogManager {
    const m_config: UcConfig
    const m_logger: UcLogger

    constructor ()
      ensures fresh(m_config) && fresh(m_logger)
      ensures m_config.Contents() == EMPTY_CACHE && m_logger.m_logLevel == LOG_ERROR
    {
      m_config := new UcConfig();
      m_logger := new UcLogger();
    }

    method UpdateLogLevel(file: File)
      modifies m_config, m_logger
      ensures m_config.Contents() == Load(old(m_config.Contents()), file)
      ensures m_logger.m_logLevel == Accept(old(m_logger.m_logLevel), ToInt32(m_config.Contents().level))
    {
      var read := m_config.LoadConfig(file);
      var level := m_config.GetLogLevel();
      m_logger.SetLogLevel(ToInt32(level));
    }

    /**
     * The first update made by Start and then the polls of the thread, each on the file as it is found;
     * the thread ends when it is told to, here when the list of findings is exhausted.
     */
    method Serve(files: seq<File>)
      requires m_config.Contents() == EMPTY_CACHE && m_logger.m_logLevel == LOG_ERROR
      modifies m_config, m_logger
      ensures m_config.Contents() == LoadAll(files) && m_logger.m_logLevel == Followed(files)
    {
      var i := 0;
      while i < |files|
        invariant i <= |files|
        invariant m_config.Contents() == LoadAll(files[..i]) && m_logger.m_logLevel == Followed(files[..i])
      {
        assert files[..i + 1][..i] == files[..i];
        UpdateLogLevel(files[i]);
        i := i + 1;
      }
      assert files[..i] == files;
    }
  }

  // ----- the cache against a fresh read -----

  /**
   * One load gives what a fresh read would give, whatever the file holds, exactly when its modification time
   * is newer than the cached one.
   */
  lemma LoadIsFreshExactly(c: Cache, mtime: uint32)
    ensures (forall content :: Load(c, Present(mtime, content)).level == ToUInt32(FreshLevel(Present(mtime, content))))
            <==> mtime > c.time
  {
    if mtime <= c.time {
      var other: int32 := if c.level == 1 then 2 else 1;
      assert Load(c, Present(mtime, Level(other))).level == c.level != ToUInt32(other);
    }
  }

  /** A poll that finds a level. */
  predicate Readable(f: File) {
    f.Present? && f.content.Level?
  }

  /** Every poll from the i-th to before the j-th finds a level. */
  ghost predicate ReadableUpTo(files: seq<File>, i: nat, j: nat)
    requires j <= |files|
  {
    forall k | i <= k < j :: Readable(files[k])
  }

  /**
   * While the file stays readable every change of it brings a later time: a time seen again means the same contents.
   * Once it was found missing or unreadable any positive time may follow.
   */
  ghost predicate Versioned(files: seq<File>) {
    && (forall i | 0 <= i < |files| :: Readable(files[i]) ==> files[i].mtime > 0)
    && (forall i, j | 0 <= i < j < |files| :: ReadableUpTo(files, i, j) && files[j].Present? ==>
          files[i].mtime <= files[j].mtime && (files[i].mtime == files[j].mtime ==> files[i] == files[j]))
  }

  /** The cache is empty, or holds what a file found since the last failure said, under that file's time. */
  ghost predicate Holds(c: Cache, files: seq<File>) {
    c == EMPTY_CACHE ||
    exists i | 0 <= i < |files| ::
      ReadableUpTo(files, i, |files|) && c == Cache(ToUInt32(files[i].content.n), files[i].mtime)
  }

  lemma LoadHolds(c: Cache, files: seq<File>, f: File)
    requires Holds(c, files) && Versioned(files + [f])
    ensures Load(c, f).level == ToUInt32(FreshLevel(f)) && Holds(Load(c, f), files + [f])
  {
    var all, n := files + [f], |files|;
    assert all[n] == f;
    if f.Present? && f.mtime > c.time && f.content.Level? {
      assert ReadableUpTo(all, n, n + 1);
    } else if f.Present? && f.mtime <= c.time && c != EMPTY_CACHE {
      var i :| 0 <= i < n && ReadableUpTo(files, i, n) && c == Cache(ToUInt32(files[i].content.n), files[i].mtime);
      assert all[i] == files[i] && forall k | i <= k < n :: all[k] == files[k];
      assert ReadableUpTo(all, i, n);
      assert ReadableUpTo(all, i, n + 1);
    }
  }

  /** A prefix of a versioned run is versioned. */
  lemma VersionedPrefix(files: seq<File>, n: nat)
    requires Versioned(files) && n <= |files|
    ensures Versioned(files[..n])
  {
    var front := files[..n];
    forall i, j | 0 <= i < j < n && ReadableUpTo(front, i, j) ensures ReadableUpTo(files, i, j) {
      assert forall k | i <= k < j :: files[k] == front[k];
    }
  }

  lemma {:induction false} LoadAllHolds(files: seq<File>)
    requires Versioned(files)
    ensures Holds(LoadAll(files), files)
  {
    if files != [] {
      var front, last := files[..|files| - 1], files[|files| - 1];
      assert files == front + [last];
      VersionedPrefix(files, |files| - 1);
      LoadAllHolds(front);
      LoadHolds(LoadAll(front), front, last);
    }
  }

  lemma LastLoadIsFresh(front: seq<File>, f: File, files: seq<File>)
    requires files == front + [f] && Versioned(files) && Holds(LoadAll(front), front)
    ensures LoadAll(files).level == ToUInt32(FreshLevel(f))
  {
    assert files[..|files| - 1] == front;
    LoadHolds(LoadAll(front), front, f);
  }

  /**
   * The cache refines a fresh read: over any run of edits, deletions and corruptions in which the times increase
   * while the file stays readable, the cached level after every load is what reading the file then gives.
   */
  lemma CacheIsFresh(files: seq<File>, k: nat)
    requires Versioned(files) && k < |files|
    ensures LoadAll(files[..k + 1]).level == ToUInt32(FreshLevel(files[k]))
  {
    VersionedPrefix(files, k);
    LoadAllHolds(files[..k]);
    VersionedPrefix(files, k + 1);
    LastLoadIsFresh(files[..k], files[k], files[..k + 1]);
  }

  /** A change under an unchanged or older time goes unnoticed. */
  lemma StaleExample()
    ensures var files := [Present(5, Level(7)), Present(5, Level(1))];
      ToInt32(LoadAll(files).level) == 7 && FreshLevel(files[1]) == 1
  {
    var files := [Present(5, Level(7)), Present(5, Level(1))];
    assert files[..1] == [files[0]] && [files[0]][..0] == [];
    assert LoadAll([files[0]]) == Cache(7, 5);
  }

  // ----- the logger against the file -----

  predicate InRange(level: int32) {
    LOG_ALERT <= level <= LOG_DEBUG
  }

  /** `level` is the last of the first n levels that is in range, or the initial one. */
  ghost predicate LastInRange(levels: int -> int32, n: nat, level: int32) {
    || (level == LOG_ERROR && forall k: nat | k < n :: !InRange(levels(k)))
    || (exists k: nat | k < n :: InRange(levels(k)) && level == levels(k) && forall j | k < j < n :: !InRange(levels(j)))
  }

  lemma LastInRangeMore(levels: int -> int32, n: nat, level: int32)
    requires LastInRange(levels, n, level)
    ensures LastInRange(levels, n + 1, Accept(level, levels(n)))
  {
    if !InRange(levels(n)) && exists k: nat | k < n :: InRange(levels(k)) {
      var k: nat :| k < n && InRange(levels(k)) && level == levels(k) && forall j | k < j < n :: !InRange(levels(j));
      assert forall j | k < j < n + 1 :: !InRange(levels(j));
    }
  }

  function PolledLevels(files: seq<File>): int -> int32 {
    k => if 0 <= k < |files| then ToInt32(LoadAll(files[..k + 1]).level) else LOG_ERROR
  }

  lemma {:induction false} FollowedSoFar(files: seq<File>, n: nat)
    requires n <= |files|
    ensures LastInRange(PolledLevels(files), n, Followed(files[..n]))
  {
    if n > 0 {
      FollowedSoFar(files, n - 1);
      assert files[..n][..n - 1] == files[..n - 1];
      LastInRangeMore(PolledLevels(files), n - 1, Followed(files[..n - 1]));
    }
  }

  /** Across all polls the logger's level stays in range and is the last in-range level polled, or LOG_ERROR. */
  lemma LoggerFollowsPolls(files: seq<File>)
    ensures 1 <= Followed(files) <= 7 && LastInRange(PolledLevels(files), |files|, Followed(files))
  {
    FollowedSoFar(files, |files|);
    assert files[..|files|] == files;
  }

  function FreshLevels(files: seq<File>): int -> int32 {
    k => if 0 <= k < |files| then FreshLevel(files[k]) else LOG_ERROR
  }

  /** End to end: with increasing times, the logger has the last in-range level the file itself ever said. */
  lemma LoggerFollowsFile(files: seq<File>)
    requires Versioned(files)
    ensures LastInRange(FreshLevels(files), |files|, Followed(files))
  {
    LoggerFollowsPolls(files);
    forall k | 0 <= k < |files| ensures PolledLevels(files)(k) == FreshLevels(files)(k) {
      CacheIsFresh(files, k);
      LevelSurvivesCasts(FreshLevel(files[k]));
    }
  }
}
