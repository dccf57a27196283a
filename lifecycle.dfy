/** The daemon's lifecycle as pure functions over an explicit process state:
    what each step of `main` does to the module-global run flag, the installed
    signal handlers, the logging threshold, the process identifier, the
    filesystem, the exit-handler list and the ordered log of side-effecting
    steps. The class in daemon.dfy performs the same steps imperatively and is
    proved equal to these functions. */
module Lifecycle {
  import opened Wrappers
  import opened Levels
  import opened Numerals

  const SIGINT: int := 2
  const SIGTERM: int := 15

  const UDEV_FILE: string := "42-logitech-unify-permissions.rules"
  const UDEV_DIRS: seq<string> := ["/etc/udev/rules.d/", "/usr/lib/udev/rules.d/", "/usr/local/lib/udev/rules.d/"]

  /** The parsed command line. `action` is the remainder after an action name; empty when none was given. */
  datatype Args = Args(
    debug: nat,
    hidrawPath: Option<string>,
    restartOnWakeUp: bool,
    pidFile: Option<string>,
    noFork: bool,
    helpActions: bool,
    action: seq<string>)

  /** What the two forks of detachment do: both succeed (giving the surviving daemon's pid), or one fails. */
  datatype ForkResult = Forked(daemonPid: nat) | FirstForkFailed | SecondForkFailed

  /** What happens during one one-second sleep of the run loop. */
  datatype Tick =
    | Quiet              // the sleep returns undisturbed
    | Signal(signum: int) // a signal is delivered during the sleep
    | Fault              // an exception escapes the sleep

  /** Everything outside the daemon's own code: the platform name, the forks'
      results, the paths `open(..., 'w')` succeeds on, the paths on which the
      write or the flush at close then raises (out of space, say), whether each
      external collaborator raises, what happens during each sleep, and the
      one-shot dispatcher. */
  datatype Env = Env(
    platform: string,
    fork: ForkResult,
    writable: set<string>,
    writeFails: set<string>,
    setupRaises: bool,
    watchRaises: bool,
    startupRaises: bool,
    shutdownRaises: bool,
    ticks: seq<Tick>,
    cliRun: (seq<string>, Option<string>) -> int)

  /** Reason reported by the signal handler. */
  datatype StopReason = KeyboardInterrupt | Terminated | OtherSignal(signum: int)

  /** The side-effecting steps, in the order the daemon performs them. */
  datatype Step =
    | HelpPrinted
    | ConfigureLogging(root: int, file: int, stream: Option<int>)
    | RunAction(action: seq<string>, hidraw: Option<string>)
    | CloseTemp
    | Detached(pid: nat)            // both forks done; both intermediate processes exited 0
    | ForkFailed(stage: nat)        // logged; this process exits 1
    | PidWritten(path: string)
    | PidWriteFailed(path: string)  // logged and swallowed
    | UdevWarning
    | SetupScanner
    | WatchSuspendResume(restartOnWakeUp: bool)
    | DeferSaves
    | InstallHandler(signum: int)
    | Startup
    | Sleep
    | DumpTraceback
    | StopRequested(reason: StopReason)
    | LoopError
    | Shutdown
    | DaemonError                   // an exception escaped the daemon sequence; exit 1 follows

  /** The state the daemon's steps act on. `running` is initialised once, when the module is loaded. */
  datatype Proc = Proc(
    running: bool,
    handlers: set<int>,
    rootLevel: int,
    pid: nat,
    fs: map<string, string>,
    cleanups: seq<string>,
    log: seq<Step>)

  /** The state at module load: flag set, no handlers, the logging default threshold. */
  function Initial(pid: nat, fs: map<string, string>): Proc
  {
    Proc(true, {}, WARNING, pid, fs, [], [])
  }

  function Append(p: Proc, steps: seq<Step>): Proc
  {
    p.(log := p.log + steps)
  }

  // ---------------------------------------------------------------- signals

  /** The reason text the handler chooses for a signal number. */
  function Reason(signum: int): (r: StopReason)
    ensures r == KeyboardInterrupt <==> signum == SIGINT
    ensures r == Terminated <==> signum == SIGTERM
    ensures r.OtherSignal? ==> r.signum == signum
  {
    if signum == SIGINT then KeyboardInterrupt
    else if signum == SIGTERM then Terminated
    else OtherSignal(signum)
  }

  /** The signal handler: dumps a traceback for an interrupt when information
      messages are enabled, reports the reason, and clears the run flag. */
  function HandleSig(p: Proc, signum: int): Proc
  {
    var dump := if signum == SIGINT && Enabled(p.rootLevel, INFO) then [DumpTraceback] else [];
    Append(p.(running := false), dump + [StopRequested(Reason(signum))])
  }

  // ---------------------------------------------------------------- PID file

  /** Python truthiness of the `--pid-file` value: present and non-empty. */
  predicate Configured(pidFile: Option<string>)
  {
    pidFile.Some? && pidFile.value != ""
  }

  /** Writing the PID file: nothing without a path; on success the file holds
      the decimal pid and one cleanup is registered. If the file cannot be
      opened, only a log line; if it was opened (and so truncated) but the
      write fails, it is left empty, with no cleanup. */
  function WritePid(p: Proc, pidFile: Option<string>, writable: set<string>, writeFails: set<string>): Proc
  {
    if !Configured(pidFile) then p
    else
      var path := pidFile.value;
      if path !in writable then
        Append(p, [PidWriteFailed(path)])
      else if path in writeFails then
        Append(p.(fs := p.fs[path := ""]), [PidWriteFailed(path)])
      else
        Append(p.(fs := p.fs[path := Decimal(p.pid)], cleanups := p.cleanups + [path]), [PidWritten(path)])
  }

  /** One registered cleanup: delete the file if it still exists. */
  function Unlink(fs: map<string, string>, path: string): map<string, string>
  {
    if path in fs then fs - {path} else fs
  }

  /** Exit handlers run last-registered first. */
  function RunCleanups(fs: map<string, string>, paths: seq<string>): map<string, string>
    decreases |paths|
  {
    if paths == [] then fs
    else RunCleanups(Unlink(fs, paths[|paths| - 1]), paths[..|paths| - 1])
  }

  /** Interpreter exit: every registered cleanup runs once. */
  function AtExit(p: Proc): Proc
  {
    p.(fs := RunCleanups(p.fs, p.cleanups), cleanups := [])
  }

  // ---------------------------------------------------------------- detachment

  /** Exit statuses of the processes that end inside detachment, in order, and
      the pid of the process that goes on, if any. */
  datatype Detachment = Detachment(exits: seq<int>, survivor: Option<nat>)

  /** Double fork: each parent exits 0; a failed fork ends the process that attempted it with 1. */
  function Detach(fork: ForkResult): (d: Detachment)
    ensures d.survivor.Some? <==> fork.Forked?
    ensures fork.Forked? ==> d.survivor.value == fork.daemonPid && d.exits == [0, 0]
    ensures !fork.Forked? ==> |d.exits| >= 1 && d.exits[|d.exits| - 1] == 1
    ensures forall i :: 0 <= i < |d.exits| && d.exits[i] != 0 ==> i == |d.exits| - 1 && d.survivor.None?
    ensures |d.exits| == (if fork.FirstForkFailed? then 1 else 2)
  {
    match fork
    case Forked(pid) => Detachment([0, 0], Some(pid))
    case FirstForkFailed => Detachment([1], None)
    case SecondForkFailed => Detachment([0, 1], None)
  }

  // ---------------------------------------------------------------- udev advisory

  /** The advisory is printed on Linux when warnings are enabled and none of
      the three candidate rule files exists. */
  predicate UdevAdvisory(platform: string, rootLevel: int, files: set<string>)
  {
    platform == "Linux"
    && Enabled(rootLevel, WARNING)
    && UDEV_DIRS[0] + UDEV_FILE !in files
    && UDEV_DIRS[1] + UDEV_FILE !in files
    && UDEV_DIRS[2] + UDEV_FILE !in files
  }

  // ---------------------------------------------------------------- run loop

  datatype LoopEnd = Stopped | Failed | Pending
  datatype LoopResult = LoopResult(proc: Proc, end: LoopEnd)

  /** `while _running: time.sleep(1)` inside `try`: leaves when the flag is
      false, or when a sleep raises; `Pending` when the ticks run out first. */
  function Loop(p: Proc, ticks: seq<Tick>): LoopResult
    decreases |ticks|
  {
    if !p.running then LoopResult(p, Stopped)
    else if ticks == [] then LoopResult(p, Pending)
    else
      var slept := Append(p, [Sleep]);
      match ticks[0]
      case Quiet => Loop(slept, ticks[1..])
      case Signal(n) => Loop(if n in p.handlers then HandleSig(slept, n) else slept, ticks[1..])
      case Fault => LoopResult(Append(slept, [LoopError]), Failed)
  }

  datatype RunEnd = RunReturned | RunRaised | RunPending
  datatype RunResult = RunResult(proc: Proc, end: RunEnd)

  /** The steps of the run loop up to the polling loop. */
  const START: seq<Step> := [InstallHandler(SIGTERM), InstallHandler(SIGINT), Startup]

  /** Installs the SIGTERM and SIGINT handlers, then calls the startup hook. */
  function Start(p: Proc): Proc
  {
    Append(p.(handlers := p.handlers + {SIGTERM, SIGINT}), START)
  }

  /** The run loop: handlers, startup (outside the `try`), the loop, and the
      shutdown hook in `finally`. */
  function RunLoop(p: Proc, startupRaises: bool, shutdownRaises: bool, ticks: seq<Tick>): RunResult
  {
    var started := Start(p);
    if startupRaises then RunResult(started, RunRaised)
    else
      var l := Loop(started, ticks);
      if l.end == Pending then RunResult(l.proc, RunPending)
      else RunResult(Append(l.proc, [Shutdown]), if shutdownRaises then RunRaised else RunReturned)
  }

  // ---------------------------------------------------------------- main

  /** What `main` returns, or the status it exits with; `StillRunning` when the
      environment's ticks ran out with the daemon still in its loop. */
  datatype Outcome = Returned(result: Option<int>) | Exited(status: int) | StillRunning
  datatype MainResult = MainResult(proc: Proc, outcome: Outcome)

  /** The logging set-up done while parsing the arguments. */
  function Configure(p: Proc, args: Args): Proc
  {
    var d := args.debug;
    Append(p.(rootLevel := RootLevel(d)),
           [ConfigureLogging(RootLevel(d), FileLevel(d), if HasStreamHandler(d, args.noFork) then Some(LogLevel(d)) else None)])
  }

  /** An exception caught by `main`'s handler: logged, then exit status 1. */
  function Escape(p: Proc): MainResult
  {
    MainResult(Append(p, [DaemonError]), Exited(1))
  }

  /** The guarded part of the daemon sequence: collaborators, then the run loop. */
  function Serve(p: Proc, args: Args, env: Env): MainResult
  {
    var scanned := Append(p, [SetupScanner]);
    if env.setupRaises then Escape(scanned) else Watch(scanned, args, env)
  }

  /** The suspend/resume watch, deferred saves, then the run loop. */
  function Watch(p: Proc, args: Args, env: Env): MainResult
  {
    var watched := Append(p, [WatchSuspendResume(args.restartOnWakeUp)]);
    if env.watchRaises then Escape(watched)
    else Conclude(RunLoop(Append(watched, [DeferSaves]), env.startupRaises, env.shutdownRaises, env.ticks))
  }

  /** After the run loop: an escaping exception goes to `main`'s handler; a
      clean return closes the temporary file and `main` returns. */
  function Conclude(r: RunResult): MainResult
  {
    match r.end
    case RunRaised => Escape(r.proc)
    case RunPending => MainResult(r.proc, StillRunning)
    case RunReturned => MainResult(Append(r.proc, [CloseTemp]), Returned(None))
  }

  /** The daemon sequence: optional detachment, PID file, udev advisory, then `Serve`. */
  function DaemonSequence(p: Proc, args: Args, env: Env): MainResult
  {
    var det := Detach(env.fork);
    if !args.noFork && det.survivor.None? then
      MainResult(Append(p, [ForkFailed(|det.exits|)]), Exited(1))
    else
      var d := if args.noFork then p else Append(p.(pid := det.survivor.value), [Detached(det.survivor.value)]);
      Settle(d, args, env)
  }

  /** The process that goes on: PID file, udev advisory, then `Serve`. */
  function Settle(d: Proc, args: Args, env: Env): MainResult
  {
    var w := WritePid(d, args.pidFile, env.writable, env.writeFails);
    var u := if UdevAdvisory(env.platform, w.rootLevel, w.fs.Keys) then Append(w, [UdevWarning]) else w;
    Serve(u, args, env)
  }

  /** `main`: help for the actions, a one-shot action, or the daemon. */
  function Main(p: Proc, args: Args, env: Env): MainResult
  {
    if args.helpActions then MainResult(Append(p, [HelpPrinted, CloseTemp]), Returned(None))
    else
      var c := Configure(p, args);
      if |args.action| > 0 then
        MainResult(Append(c, [RunAction(args.action, args.hidrawPath), CloseTemp]),
                   Returned(Some(env.cliRun(args.action, args.hidrawPath))))
      else DaemonSequence(c, args, env)
  }

  /** The process as a whole: `main`, then the exit handlers once it ends. */
  function Process(p: Proc, args: Args, env: Env): MainResult
  {
    var m := Main(p, args, env);
    if m.outcome == StillRunning then m else MainResult(AtExit(m.proc), m.outcome)
  }
}
