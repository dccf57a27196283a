/** Logging thresholds chosen by the daemon's argument parsing from the number
    of `-d` flags. Levels are the standard library's integer severities: a
    record is emitted by a logger or handler when its level is at least the
    threshold. */
module Levels {

  const ERROR: int := 40
  const WARNING: int := 30
  const INFO: int := 20
  const DEBUG: int := 10

  /** The base threshold: one level more verbose per `-d`. No floor is applied. */
  function LogLevel(debug: nat): (level: int)
    ensures level <= ERROR
    ensures level == ERROR <==> debug == 0
  {
    ERROR - 10 * debug
  }

  /** Threshold set on the root logger: the base threshold, capped at WARNING. */
  function RootLevel(debug: nat): (level: int)
    ensures level <= WARNING && level <= LogLevel(debug)
    ensures level == WARNING || level == LogLevel(debug)
  {
    if LogLevel(debug) < WARNING then LogLevel(debug) else WARNING
  }

  /** Threshold of the handler writing to the diagnostic temporary file: the
      root threshold, raised to at least INFO. */
  function FileLevel(debug: nat): (level: int)
    ensures INFO <= level <= WARNING
    ensures RootLevel(debug) <= level
    ensures level == INFO || level == RootLevel(debug)
  {
    if RootLevel(debug) < INFO then INFO else RootLevel(debug)
  }

  /** A handler printing to the terminal is added when debugging or running in
      the foreground; its threshold is the base threshold itself. */
  predicate HasStreamHandler(debug: nat, noFork: bool)
  {
    debug > 0 || noFork
  }

  /** `isEnabledFor` of a logger that inherits the root threshold. */
  predicate Enabled(rootLevel: int, level: int)
  {
    level >= rootLevel
  }

  /** A record reaches the file handler when both the root logger and the handler let it through. */
  predicate FileRecords(debug: nat, level: int)
  {
    Enabled(RootLevel(debug), level) && level >= FileLevel(debug)
  }

  /** A record reaches the terminal when the stream handler exists and both thresholds let it through. */
  predicate StreamRecords(debug: nat, noFork: bool, level: int)
  {
    HasStreamHandler(debug, noFork) && Enabled(RootLevel(debug), level) && level >= LogLevel(debug)
  }

  /** The root threshold by cases: WARNING without `-d`, the base threshold otherwise. */
  lemma RootLevelCases(debug: nat)
    ensures RootLevel(debug) == if debug == 0 then WARNING else ERROR - 10 * debug
  {
  }

  /** The file threshold takes only two values: WARNING for at most one `-d`, INFO from two on. */
  lemma FileLevelCases(debug: nat)
    ensures FileLevel(debug) == if debug <= 1 then WARNING else INFO
  {
  }

  /** More `-d` flags never raise any threshold. */
  lemma LevelsMonotone(d1: nat, d2: nat)
    requires d1 <= d2
    ensures LogLevel(d2) <= LogLevel(d1)
    ensures RootLevel(d2) <= RootLevel(d1)
    ensures FileLevel(d2) <= FileLevel(d1)
  {
  }

  /** The file handler records exactly the records at or above its own
      threshold: the root logger never filters more than it does. */
  lemma FileRecordsExactly(debug: nat, level: int)
    ensures FileRecords(debug, level) <==> level >= (if debug <= 1 then WARNING else INFO)
  {
    FileLevelCases(debug);
  }

  /** The terminal shows exactly the records at or above the base threshold,
      when it is attached at all; with `--no-fork` and no `-d` that is errors only. */
  lemma StreamRecordsExactly(debug: nat, noFork: bool, level: int)
    ensures StreamRecords(debug, noFork, level) <==> (debug > 0 || noFork) && level >= ERROR - 10 * debug
  {
  }

  /** Warnings are enabled at every verbosity, so the udev advisory is never
      suppressed by the logging configuration. */
  lemma WarningsAlwaysEnabled(debug: nat)
    ensures Enabled(RootLevel(debug), WARNING)
  {
  }

  /** Information messages (signal reasons, the traceback dump) are enabled
      exactly from two `-d` flags on. */
  lemma InfoEnabledIff(debug: nat)
    ensures Enabled(RootLevel(debug), INFO) <==> debug >= 2
  {
  }

  /** The base threshold has no floor: from four `-d` flags on it is below DEBUG. */
  lemma NoFloor(debug: nat)
    requires debug >= 4
    ensures LogLevel(debug) < DEBUG
    ensures LogLevel(debug + 1) < LogLevel(debug)
  {
  }
}
