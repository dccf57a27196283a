/** The daemon as the source runs it: module-global state updated in place by
    the signal handler, the run loop, the PID-file writer, the interpreter's
    exit handlers and `main`. Each method is proved to leave the state that
    the corresponding function of `Lifecycle` describes. */
module Runtime {
  import opened Wrappers
  import opened Levels
  import opened Numerals
  import opened Lifecycle

  class Daemon {
    var running: bool                // the module-global `_running`
    var handlers: set<int>           // signals whose handler is `_handlesig`
    var rootLevel: int               // threshold of the root logger
    var pid: nat                     // `os.getpid()`
    var fs: map<string, string>      // regular files by path
    var cleanups: seq<string>        // PID files whose removal `atexit` holds, in registration order
    var log: seq<Step>               // the side-effecting steps performed so far

    function State(): Proc
      reads this
    {
      Proc(running, handlers, rootLevel, pid, fs, cleanups, log)
    }

    /** Module load: `_running = True`; nothing installed or registered yet. */
    constructor (pid0: nat, fs0: map<string, string>)
      ensures State() == Initial(pid0, fs0)
    {
      running := true;
      handlers := {};
      rootLevel := WARNING;
      pid := pid0;
      fs := fs0;
      cleanups := [];
      log := [];
    }

    /** `_handlesig`: called by the environment when a signal with this handler arrives. */
    method HandleSignal(signum: int)
      modifies this`running, this`log
      ensures State() == HandleSig(old(State()), signum)
      ensures !running
    {
      if signum == SIGINT {
        if Enabled(rootLevel, INFO) {
          log := log + [DumpTraceback];
        }
        log := log + [StopRequested(KeyboardInterrupt)];
      } else if signum == SIGTERM {
        log := log + [StopRequested(Terminated)];
      } else {
        log := log + [StopRequested(OtherSignal(signum))];
      }
      running := false;
    }

    /** `_parse_arguments` after the parser: `false` (the source's `None`) for
        `--help-actions`, otherwise the logging thresholds are set. */
    method ParseArguments(args: Args) returns (parsed: bool)
      modifies this`rootLevel, this`log
      ensures parsed == !args.helpActions
      ensures parsed ==> State() == Configure(old(State()), args)
      ensures !parsed ==> State() == Append(old(State()), [HelpPrinted])
    {
      if args.helpActions {
        log := log + [HelpPrinted];
        return false;
      }
      var d := args.debug;
      var level := ERROR - 10 * d;
      rootLevel := if level < WARNING then level else WARNING;
      var fileLevel := if rootLevel < INFO then INFO else rootLevel;
      var stream := if d > 0 || args.noFork then Some(level) else None;
      log := log + [ConfigureLogging(rootLevel, fileLevel, stream)];
      parsed := true;
    }

    /** `_daemonize`: the surviving process continues with the daemon's pid;
        a failed fork ends the process with status 1. */
    method Daemonize(fork: ForkResult) returns (survived: bool)
      modifies this`pid, this`log
      ensures survived == Detach(fork).survivor.Some?
      ensures survived ==> State() == Append(old(State()).(pid := fork.daemonPid), [Detached(fork.daemonPid)])
      ensures !survived ==> State() == Append(old(State()), [ForkFailed(|Detach(fork).exits|)])
    {
      match fork
      case Forked(daemonPid) =>
        pid := daemonPid;
        log := log + [Detached(daemonPid)];
        survived := true;
      case FirstForkFailed =>
        log := log + [ForkFailed(1)];
        survived := false;
      case SecondForkFailed =>
        log := log + [ForkFailed(2)];
        survived := false;
    }

    /** `_write_pid_file`; `writable` is the set of paths `open(..., 'w')`
        succeeds on, `writeFails` those on which the write then raises. */
    method WritePidFile(pidFile: Option<string>, writable: set<string>, writeFails: set<string>)
      modifies this`fs, this`cleanups, this`log
      ensures State() == WritePid(old(State()), pidFile, writable, writeFails)
    {
      if pidFile.Some? && pidFile.value != "" {
        var path := pidFile.value;
        if path !in writable {
          log := log + [PidWriteFailed(path)];
          return;
        }
        fs := fs[path := ""];
        if path in writeFails {
          log := log + [PidWriteFailed(path)];
          return;
        }
        fs := fs[path := Decimal(pid)];
        cleanups := cleanups + [path];
        log := log + [PidWritten(path)];
      }
    }

    /** The registered cleanup: `os.path.exists(p) and os.unlink(p)`. */
    method Cleanup(path: string)
      modifies this`fs
      ensures path !in fs
      ensures path in old(fs) ==> fs == old(fs) - {path}
      ensures path !in old(fs) ==> fs == old(fs)
    {
      if path in fs {
        fs := fs - {path};
      }
    }

    /** Interpreter exit: the registered cleanups run, last registered first. */
    method RunExitHandlers()
      modifies this`fs, this`cleanups
      ensures State() == AtExit(old(State()))
    {
      ghost var paths := cleanups;
      ghost var fs0 := fs;
      var i := |cleanups|;
      assert paths[..i] == paths;
      while i > 0
        invariant 0 <= i <= |paths| && cleanups == paths
        invariant RunCleanups(fs, paths[..i]) == RunCleanups(fs0, paths)
        decreases i
      {
        assert paths[..i][..i - 1] == paths[..i - 1];
        Cleanup(cleanups[i - 1]);
        i := i - 1;
      }
      cleanups := [];
    }

    /** `_daemon_run_loop`: handlers, then the startup hook outside the `try`,
        then the polling loop, and the shutdown hook in `finally`. The ticks
        say what happens during each sleep. */
    method DaemonRunLoop(startupRaises: bool, shutdownRaises: bool, ticks: seq<Tick>) returns (end: RunEnd)
      modifies this`running, this`handlers, this`log
      ensures RunResult(State(), end) == RunLoop(old(State()), startupRaises, shutdownRaises, ticks)
    {
      handlers := handlers + {SIGTERM};
      log := log + [InstallHandler(SIGTERM)];
      handlers := handlers + {SIGINT};
      log := log + [InstallHandler(SIGINT)];
      log := log + [Startup];
      assert State() == Start(old(State()));
      if startupRaises {
        return RunRaised;
      }
      ghost var started := State();
      var i := 0;
      var failed := false;
      while running && i < |ticks| && !failed
        invariant 0 <= i <= |ticks|
        invariant handlers == started.handlers && rootLevel == started.rootLevel
        invariant pid == started.pid && fs == started.fs && cleanups == started.cleanups
        invariant !failed ==> Loop(State(), ticks[i..]) == Loop(started, ticks)
        invariant failed ==> LoopResult(State(), Failed) == Loop(started, ticks)
        decreases |ticks| - i
      {
        ghost var before := State();
        assert ticks[i..][1..] == ticks[i + 1..];
        log := log + [Sleep];
        match ticks[i] {
          case Quiet =>
          case Signal(n) =>
            if n in handlers {
              HandleSignal(n);
            }
          case Fault =>
            log := log + [LoopError];
            failed := true;
        }
        i := i + 1;
      }
      if !failed && running {
        return RunPending;
      }
      log := log + [Shutdown];
      end := if shutdownRaises then RunRaised else RunReturned;
    }

    /** `main` after the dependency check, from the point of view of the process that goes on. */
    method RunMain(args: Args, env: Env) returns (outcome: Outcome)
      modifies this
      ensures MainResult(State(), outcome) == Main(old(State()), args, env)
    {
      var parsed := ParseArguments(args);
      if !parsed {
        log := log + [CloseTemp];
        return Returned(None);
      }
      if |args.action| > 0 {
        var result := env.cliRun(args.action, args.hidrawPath);
        log := log + [RunAction(args.action, args.hidrawPath), CloseTemp];
        return Returned(Some(result));
      }
      ghost var configured := State();
      if !args.noFork {
        var survived := Daemonize(env.fork);
        if !survived {
          return Exited(1);
        }
      }
      ghost var detached := State();
      assert DaemonSequence(configured, args, env) == Settle(detached, args, env);
      WritePidFile(args.pidFile, env.writable, env.writeFails);
      if UdevAdvisory(env.platform, rootLevel, fs.Keys) {
        log := log + [UdevWarning];
      }
      ghost var advised := State();
      assert Settle(detached, args, env) == Serve(advised, args, env);
      outcome := ServeGuarded(args, env);
    }

    /** The guarded block of `main`: scanner, suspend watch, deferred saves and
        the run loop; an exception escaping any of them is logged and ends the
        process with status 1. */
    method ServeGuarded(args: Args, env: Env) returns (outcome: Outcome)
      modifies this`running, this`handlers, this`log
      ensures MainResult(State(), outcome) == Serve(old(State()), args, env)
    {
      log := log + [SetupScanner];
      if env.setupRaises {
        log := log + [DaemonError];
        return Exited(1);
      }
      ghost var scanned := State();
      log := log + [WatchSuspendResume(args.restartOnWakeUp)];
      if env.watchRaises {
        log := log + [DaemonError];
        return Exited(1);
      }
      log := log + [DeferSaves];
      ghost var deferred := State();
      var end := DaemonRunLoop(env.startupRaises, env.shutdownRaises, env.ticks);
      assert Watch(scanned, args, env) == Conclude(RunResult(State(), end));
      match end {
        case RunRaised =>
          log := log + [DaemonError];
          outcome := Exited(1);
        case RunPending =>
          outcome := StillRunning;
        case RunReturned =>
          log := log + [CloseTemp];
          outcome := Returned(None);
      }
    }

    /** The whole process: `main`, then the exit handlers when it ends. */
    method RunProcess(args: Args, env: Env) returns (outcome: Outcome)
      modifies this
      ensures MainResult(State(), outcome) == Process(old(State()), args, env)
    {
      outcome := RunMain(args, env);
      if outcome != StillRunning {
        RunExitHandlers();
      }
    }
  }
}
