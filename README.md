# Solaar daemon lifecycle

This project models the lifecycle controller in Solaar's headless daemon entry
point, `lib/solaar/daemon.py`, and proves properties of it.

`main` takes one of three paths:

- With `--help-actions` it prints the actions' help and returns nothing.
- With a command-line action it runs that action once and returns the
  dispatcher's result.
- Otherwise it runs the daemon sequence:
  1. detach from the terminal (a double fork), unless `--no-fork` is given;
  2. write the PID file;
  3. print an advisory if no udev rule file is installed;
  4. set up the device scanner, the suspend/resume watch and deferred
     configuration saves;
  5. run the loop, which waits for SIGTERM or SIGINT.

  An exception that escapes step 4 or 5 is logged, and the process exits with
  status 1.

The model is organised as follows:

- `Levels` (levels.dfy) holds the logging thresholds derived from the number
  of `-d` flags.
- `Numerals` (numerals.dfy) holds the decimal rendering of a pid, which is the
  PID file's contents, and its inverse.
- `Lifecycle` (lifecycle.dfy) describes every step as a pure function over an
  explicit process state `Proc`:
  - the module-global run flag `_running`;
  - the installed signal handlers;
  - the root logging threshold;
  - the pid;
  - the filesystem, as a map from path to contents;
  - the list of `atexit` cleanups;
  - an ordered log of side-effecting steps, which includes the hook calls and
    the collaborator calls.

  The environment the source cannot see is an explicit `Env` value:
  - the platform name;
  - the results of the two forks;
  - which paths can be opened for writing, and on which of them the write
    then fails (the file is already truncated by then);
  - whether each external collaborator raises;
  - what happens during each one-second sleep of the loop: nothing, a
    delivered signal, or an exception;
  - the one-shot action dispatcher.
- `Runtime.Daemon` (daemon.dfy) is a class whose fields are that state. Its
  methods update the fields in place, as the source does. Each method is
  proved to leave exactly the state that the corresponding `Lifecycle`
  function describes. The run loop is a `while` loop that polls the flag, and
  signal delivery is a call to `HandleSignal` between sleeps.
- `Properties` (properties.dfy) proves the properties of the signal handler,
  the PID file and the run loop.
- `Dispatch` and `Outcomes` (dispatch.dfy) prove the properties of `main`'s
  three paths: step order, exit status, and the PID file's lifetime.

Some modelling conventions:

- The model follows the process that goes on after detachment. The parents'
  exit statuses are recorded in `Detach(...).exits`.
- The loop's sleeps are a finite sequence of ticks. If the ticks run out while
  the flag is still set, the outcome is `StillRunning`: the daemon has not
  stopped within the modelled horizon, so no shutdown and no exit handlers
  have run yet.

Three behaviours of the source worth noting:

- The startup hook is called before the `try` of the run loop
  (`lib/solaar/daemon.py:182-184`). So if it raises, the shutdown hook is not
  called.
- The base logging threshold `40 - 10*d` has no lower bound.
- `_running` is set only when the module is loaded, not when the loop is
  entered. So a loop entered after a signal calls startup and then shutdown
  at once.

## Model

| member | source | states |
|---|---|---|
| Levels.LogLevel | lib/solaar/daemon.py:104 | The base threshold is at most ERROR, and equals ERROR exactly without `-d`. |
| Levels.HasStreamHandler | lib/solaar/daemon.py:110 | A terminal handler is added iff `d > 0` or `--no-fork`. |
| Levels.Enabled | lib/solaar/daemon.py:163 | `isEnabledFor(level)` of a logger inheriting the root threshold: the level is at least that threshold. |
| Levels.RootLevel | lib/solaar/daemon.py:104-105 | The root threshold is at most WARNING and at most the base threshold, and equals one of them. |
| Levels.FileLevel | lib/solaar/daemon.py:107 | The file handler's threshold always lies in [INFO, WARNING], is never below the root threshold, and equals INFO or the root threshold. |
| Levels.RootLevelCases | lib/solaar/daemon.py:104-105 | The root threshold is WARNING without `-d`, and `40 - 10*d` with `-d`. |
| Levels.FileLevelCases | lib/solaar/daemon.py:107 | The file threshold is WARNING for at most one `-d`, and INFO from two on. |
| Levels.LevelsMonotone | lib/solaar/daemon.py:104-113 | More `-d` flags never raise the base, root or file threshold. |
| Levels.FileRecordsExactly | lib/solaar/daemon.py:105-109 | The temporary file receives exactly the records at or above WARNING (at most one `-d`) or at or above INFO (two or more). |
| Levels.StreamRecordsExactly | lib/solaar/daemon.py:110-114 | The terminal receives records iff `d > 0` or `--no-fork`, and then exactly those at or above `40 - 10*d`. |
| Levels.WarningsAlwaysEnabled | lib/solaar/daemon.py:105 | WARNING is enabled at every verbosity. |
| Levels.InfoEnabledIff | lib/solaar/daemon.py:104-105 | INFO records are enabled exactly when `d >= 2`. |
| Levels.NoFloor | lib/solaar/daemon.py:104 | From four `-d` flags on, the base threshold is below DEBUG and keeps decreasing. |
| Numerals.Decimal | lib/solaar/daemon.py:199 | `str(pid)` is a non-empty digit string, and has a leading zero only for 0. |
| Numerals.ValueOfDecimal | lib/solaar/daemon.py:199 | Reading back the written pid gives the pid. |
| Numerals.DecimalInjective | lib/solaar/daemon.py:199 | Distinct pids give distinct file contents. |
| Lifecycle.Reason | lib/solaar/daemon.py:162-169 | The reason is a keyboard interrupt iff the signal is 2, a termination iff it is 15, and the number itself otherwise. |
| Lifecycle.UdevAdvisory | lib/solaar/daemon.py:268-274 | The advisory condition: Linux, warnings enabled, and none of the three rule files exists. |
| Lifecycle.Detach | lib/solaar/daemon.py:206-229 | A process goes on iff both forks succeed, with the daemon's pid; each parent exits 0; a failed fork ends its process with status 1, and that is the last exit. |
| Runtime.Daemon.constructor | lib/solaar/daemon.py:46 | At module load the flag is set, no handler is installed and no cleanup is registered. |
| Runtime.Daemon.HandleSignal | lib/solaar/daemon.py:160-171 | In-place handler: the new state is `HandleSig` of the old one, and the flag is false. |
| Runtime.Daemon.ParseArguments | lib/solaar/daemon.py:95-120 | It returns false exactly for `--help-actions`, which only prints help; otherwise it sets the thresholds as `Configure` says. |
| Runtime.Daemon.Daemonize | lib/solaar/daemon.py:206-239 | The process goes on iff both forks succeed, and then carries the daemon's pid; otherwise the failed fork is logged. |
| Runtime.Daemon.WritePidFile | lib/solaar/daemon.py:194-203 | In-place PID-file writer: the open truncates the file, then the pid is written and the cleanup registered, and a failure at either point is logged and swallowed. The new state equals `WritePid`. |
| Runtime.Daemon.Cleanup | lib/solaar/daemon.py:200 | The registered lambda deletes the file if it exists and otherwise changes nothing. |
| Runtime.Daemon.RunExitHandlers | lib/solaar/daemon.py:200 | Running the registered cleanups last-first leaves the state `AtExit` describes. |
| Runtime.Daemon.DaemonRunLoop | lib/solaar/daemon.py:174-191 | The loop polls `_running` and handles delivered signals in place, ending in the state and end that `RunLoop` describes. |
| Runtime.Daemon.RunMain | lib/solaar/daemon.py:249-294 | In-place `main` equal to `Main`. |
| Runtime.Daemon.ServeGuarded | lib/solaar/daemon.py:278-294 | The guarded block: an escaping exception is logged with exit 1, and a clean return closes the temporary file. It equals `Serve`. |
| Runtime.Daemon.RunProcess | lib/solaar/daemon.py:242-294 | `main` followed by the exit handlers, equal to `Process`. |
| Properties.HandlerStops | lib/solaar/daemon.py:160-171 | For every signal number the handler clears the flag, reports the reason last, and changes nothing else. |
| Properties.HandlerIdempotent | lib/solaar/daemon.py:171 | A second signal leaves the flag false and changes nothing but the log. |
| Properties.TracebackOnlyWhenVerbose | lib/solaar/daemon.py:162-164 | A traceback is dumped exactly for SIGINT with at least two `-d`. |
| Properties.PidFileUnconfigured | lib/solaar/daemon.py:196 | An absent or empty path changes nothing. |
| Properties.PidFileWritten | lib/solaar/daemon.py:197-201 | On success the file reads back as the pid, exactly one cleanup for that path is registered, and no other file changes. |
| Properties.PidFileFailure | lib/solaar/daemon.py:198-203 | When the file cannot be opened, only the error is logged: no file, no cleanup, nothing raised. |
| Properties.PidFileTruncated | lib/solaar/daemon.py:198-203 | When the file was opened but the write fails, the error is logged and swallowed, the file is left empty (never holding the pid), no cleanup is registered, and nothing else changes. |
| Properties.CleanupsRemove | lib/solaar/daemon.py:200 | The exit handlers remove exactly the registered files that exist, and leave every other file and its contents alone. |
| Properties.LoopFrame | lib/solaar/daemon.py:184-189 | The loop adds only loop steps, changes nothing but the flag and the log, and stops cleanly iff the flag is false; a cleared flag means no iteration. |
| Properties.LoopPendingIff | lib/solaar/daemon.py:186-187 | The loop runs through all ticks iff the flag is set and no tick is an exception or a handled signal. |
| Properties.LoopStoppedIff | lib/solaar/daemon.py:186-189 | With the flag set, the loop stops cleanly iff a handled signal arrives before any exception or earlier handled signal. |
| Properties.StartCounts | lib/solaar/daemon.py:179-182 | The prefix of a run holds exactly one startup and no shutdown. |
| Properties.RunTrace | lib/solaar/daemon.py:174-191 | A run's steps are the handlers, startup, loop steps only, then shutdown unless startup raised or the loop is still polling. |
| Properties.RunLoopShape | lib/solaar/daemon.py:174-191 | A run changes only the flag, the handlers (adding SIGTERM and SIGINT) and the log. It is pending iff the loop is still polling, and raises iff startup raised or shutdown raised after the loop. |
| Properties.RunLoopShutdownOnce | lib/solaar/daemon.py:179-191 | Handlers come before startup. Startup is called exactly once. Shutdown is called exactly once, as the last step, even after a loop exception; it is not called when startup raised. |
| Properties.SignalBeforeEntry | lib/solaar/daemon.py:174-191 | A loop entered with the flag already cleared calls startup and then shutdown with no sleep, whatever happens later. |
| Dispatch.HelpActionsShortCircuits | lib/solaar/daemon.py:249-252 | `--help-actions` returns nothing. It only prints help and closes the file: no logging set-up, action, fork, PID file or handler. |
| Dispatch.OneShotVerbatim | lib/solaar/daemon.py:254-258 | An action's result is returned unchanged. No daemon step happens, and the state changes only in its threshold. |
| Dispatch.NoPidFileOutsideDaemon | lib/solaar/daemon.py:249-258 | The help and one-shot paths leave the filesystem as they found it. |
| Dispatch.RunSpan | lib/solaar/daemon.py:179-191 | The run loop's steps are in order, from handler installation to shutdown. |
| Dispatch.DaemonOrdered | lib/solaar/daemon.py:260-294 | Whatever steps the daemon path performs, in every case (fork failure and raising collaborators included), follow the source's order: logging, detachment, PID file, udev advisory, scanner, suspend watch, deferred saves, handlers, startup, loop, shutdown, then the error report or closing the file. Which steps occur is `Outcomes.DaemonTrace`. |
| Dispatch.DaemonSpan | lib/solaar/daemon.py:249-294 | The daemon path's added trace is ordered, from logging set-up to the end, in every case. |
| Dispatch.PidTrace | lib/solaar/daemon.py:194-203 | The PID step logs exactly one line when a path is given and none otherwise, and adds the path to the existing files exactly when it could be opened. |
| Outcomes.ServeOutcome | lib/solaar/daemon.py:278-294 | The guarded block ends as `Verdict` says and leaves files, cleanups and pid alone. |
| Outcomes.SettleOutcome | lib/solaar/daemon.py:264-294 | After detachment only the PID file touches files, and the outcome is `Verdict`. |
| Outcomes.DaemonExitStatus | lib/solaar/daemon.py:261-292 | On the daemon path the exit status is 1 iff a fork fails, a collaborator or startup raises, or shutdown raises after the loop. The daemon still runs iff the loop is still polling; otherwise `main` returns normally. |
| Outcomes.PidFileNonFatal | lib/solaar/daemon.py:202-203 | Neither whether the PID file can be opened nor whether its write fails changes how `main` ends. |
| Outcomes.ForkFailureLeavesNothing | lib/solaar/daemon.py:210-229 | A failed fork exits 1 and leaves no PID file, cleanup or handler behind. |
| Outcomes.PidFileLifetime | lib/solaar/daemon.py:194-203 | With a path that can be written, the PID file holds the surviving daemon's pid while it runs, and is gone once `main` has returned or exited. |
| Outcomes.PidFileLeftEmpty | lib/solaar/daemon.py:198-203 | A PID file that was opened but not written stays behind, empty, after the process ends. |
| Outcomes.DaemonizeIffForking | lib/solaar/daemon.py:261-262 | Detachment is attempted exactly without `--no-fork`. It comes right after the logging set-up, and a failed fork ends the trace. |
| Outcomes.ConcludeTrace | lib/solaar/daemon.py:289-294 | After the run loop, `main` adds exactly the closing step of its outcome: the error report, nothing while still running, or closing the temporary file. |
| Outcomes.ServeTrace | lib/solaar/daemon.py:278-294 | When neither collaborator raises, the guarded block performs exactly the scanner, the suspend watch, deferred saves, the run's steps and the closing step that `Verdict` selects. |
| Outcomes.SettleTrace | lib/solaar/daemon.py:264-294 | After detachment the process performs exactly the PID step, the udev advisory when it applies to the files after the PID step, then the guarded block's steps. |
| Outcomes.DetachTrace | lib/solaar/daemon.py:249-262 | With no fork failure the daemon path adds exactly the logging set-up and, unless `--no-fork`, the detachment, keeping the flag, handlers and files. |
| Outcomes.DaemonTrace | lib/solaar/daemon.py:249-294 | With no fork failure and no raising collaborator, the daemon path's trace is exactly: logging set-up, detachment unless `--no-fork`, the PID step iff a path is given, the advisory iff it applies, scanner, suspend watch, deferred saves, handlers, startup, loop steps, shutdown unless startup raised or the loop is still polling, and the closing step. |
| Outcomes.DaemonReachesLoop | lib/solaar/daemon.py:278-292 | With no fork failure and no raising collaborator, `main` calls startup exactly once, and shutdown exactly once unless startup raised or the loop is still polling. |
| Outcomes.UdevAdvisoryConfigured | lib/solaar/daemon.py:267-276 | Once logging is configured, the advisory appears iff the platform is Linux and none of the three rule files exists. |

## Left out

- Argument parsing itself (`create_parser`, `-V`/`--version`) is not modelled; its result is the `Args` record. The daemon-version info line (lines 116-118) is not modelled either: it depends on the locale and only logs.
- The `pyudev` import check at the start of `main` (lines 243-247) is not modelled: it is a foreign import.
- The OS side of detachment is not modelled: `chdir("/")`, `setsid`, `umask` and the redirection to `/dev/null`. One consequence: a relative `--pid-file` path resolves against `/` after detachment, and the model treats paths as opaque strings.
- Asynchronous signal delivery, the one-second sleep and the traceback's contents are not modelled. A signal is a tick handled between sleeps. A signal without an installed handler does nothing, so the default dispositions of other signals are not modelled.
- Logging handler objects, the temporary file and message texts are not modelled. Logging set-up, traceback dumps and reasons appear as steps in the log.
- `daemon_status_changed`, `daemon_setting_changed` and `daemon_error_handler` (lines 123-157) are not modelled: they only format log lines about device objects.
- The collaborators `listener`, `dbus`, `configuration` and `cli` are not modelled. Each is a step that raises or not as `Env` says, and `cli.run` is the function `Env.cliRun`.
- File existence is not read from the system: the udev check reads it from the modelled filesystem's keys, and the writability of a path is an input.
- Loop progress is bounded by the ticks given. A daemon that never receives a signal is modelled only up to a finite horizon, as `StillRunning`.
- Outcomes.PidFileLifetime: covers only the ends the model has, a return or an exit through `sys.exit`. A SIGTERM, or a SIGHUP under `--no-fork`, delivered after the PID file is written (line 265) but before the handlers are installed (lines 179-180) takes its default disposition: the process dies without the cleanup of line 200 and the PID file stays. So does SIGKILL at any time. Signals outside the run loop are not modelled.
- A partial write of the pid is not modelled: a write that fails leaves the file empty.
- `cli.run` raising (line 256) is not modelled: `Env.cliRun` always returns, so the one-shot path never ends with an exception escaping `main` before `temp.close()`.
- Only `Exception` subclasses are modelled as escaping. `SystemExit` from a failed fork and `KeyboardInterrupt` without a handler are not.
