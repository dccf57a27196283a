/** What `main` guarantees on each of its three paths: the help for the
    actions, a one-shot action, and the daemon sequence. */
module Dispatch {
  import opened Wrappers
  import opened Levels
  import opened Numerals
  import opened Lifecycle
  import opened Properties

  /** Neither `--help-actions` nor an action: the daemon sequence runs. */
  predicate DaemonPath(args: Args)
  {
    !args.helpActions && |args.action| == 0
  }

  /** Detachment was asked for and one of its forks failed. */
  predicate ForkFails(args: Args, env: Env)
  {
    !args.noFork && !env.fork.Forked?
  }

  /** The pid of the process that goes on after detachment. */
  function DaemonPid(p: Proc, args: Args, env: Env): nat
  {
    if args.noFork || !env.fork.Forked? then p.pid else env.fork.daemonPid
  }

  /** Steps only the daemon sequence performs. */
  predicate DaemonStep(s: Step)
  {
    s.Detached? || s.ForkFailed? || s.PidWritten? || s.PidWriteFailed? || s.UdevWarning?
    || s.SetupScanner? || s.WatchSuspendResume? || s.DeferSaves? || s.InstallHandler?
    || s.Startup? || InLoop(s) || s.Shutdown? || s.DaemonError?
  }

  /** Position of a step in the daemon sequence as the source writes it. */
  function Phase(s: Step): nat
  {
    match s
    case ConfigureLogging(_, _, _) => 0
    case Detached(_) => 1
    case ForkFailed(_) => 1
    case PidWritten(_) => 2
    case PidWriteFailed(_) => 2
    case UdevWarning => 3
    case SetupScanner => 4
    case WatchSuspendResume(_) => 5
    case DeferSaves => 6
    case InstallHandler(_) => 7
    case Startup => 8
    case Sleep => 9
    case DumpTraceback => 9
    case StopRequested(_) => 9
    case LoopError => 9
    case Shutdown => 10
    case DaemonError => 11
    case CloseTemp => 11
    case HelpPrinted => 12
    case RunAction(_, _) => 12
  }

  /** Each step's phase is at most the next one's. */
  predicate Ordered(t: seq<Step>)
    decreases |t|
  {
    |t| <= 1 || (Phase(t[0]) <= Phase(t[1]) && Ordered(t[1..]))
  }

  predicate Within(t: seq<Step>, lo: nat, hi: nat)
    decreases |t|
  {
    t == [] || (lo <= Phase(t[0]) <= hi && Within(t[1..], lo, hi))
  }

  // ---------------------------------------------------------------- helpers

  /** `q` extends `p` by steps in order, with phases between `lo` and `hi`. */
  predicate Span(p: Proc, q: Proc, lo: nat, hi: nat)
  {
    Extends(p, q) && Ordered(Added(p, q)) && Within(Added(p, q), lo, hi)
  }

  lemma {:induction false} Widen(t: seq<Step>, lo: nat, hi: nat, lo2: nat, hi2: nat)
    requires Within(t, lo, hi) && lo2 <= lo && hi <= hi2
    ensures Within(t, lo2, hi2)
    decreases |t|
  {
    if t != [] {
      Widen(t[1..], lo, hi, lo2, hi2);
    }
  }

  lemma {:induction false} Then(a: seq<Step>, b: seq<Step>, lo: nat, mid: nat, hi: nat)
    requires lo <= mid <= hi
    requires Ordered(a) && Within(a, lo, mid)
    requires Ordered(b) && Within(b, mid, hi)
    ensures Ordered(a + b) && Within(a + b, lo, hi)
    decreases |a|
  {
    if a == [] {
      assert a + b == b;
      Widen(b, mid, hi, lo, hi);
    } else {
      assert (a + b)[1..] == a[1..] + b;
      Then(a[1..], b, lo, mid, hi);
      if |a| == 1 && b != [] {
        assert (a + b)[1] == b[0];
      } else if |a| > 1 {
        assert (a + b)[1] == a[1];
      }
    }
  }

  /** The recursive ordering gives every pair of steps in order. */
  lemma {:induction false} OrderedPairs(t: seq<Step>, i: nat, j: nat)
    requires Ordered(t) && i <= j < |t|
    ensures Phase(t[i]) <= Phase(t[j])
    decreases j
  {
    if i < j {
      OrderedPairs(t, i, j - 1);
      OrderedAdjacent(t, j - 1);
    }
  }

  lemma {:induction false} OrderedAdjacent(t: seq<Step>, k: nat)
    requires Ordered(t) && k + 1 < |t|
    ensures Phase(t[k]) <= Phase(t[k + 1])
    decreases k
  {
    if k > 0 {
      OrderedAdjacent(t[1..], k - 1);
    }
  }

  lemma AddedChain(p: Proc, q: Proc, r: Proc)
    requires Extends(p, q) && Extends(q, r)
    ensures Extends(p, r) && Added(p, r) == Added(p, q) + Added(q, r)
  {
    assert r.log[..|p.log|] == r.log[..|q.log|][..|p.log|];
  }

  lemma SpanChain(p: Proc, q: Proc, r: Proc, lo: nat, mid: nat, hi: nat)
    requires lo <= mid <= hi
    requires Span(p, q, lo, mid) && Span(q, r, mid, hi)
    ensures Span(p, r, lo, hi)
  {
    AddedChain(p, q, r);
    Then(Added(p, q), Added(q, r), lo, mid, hi);
  }

  lemma AppendAdds(p: Proc, steps: seq<Step>)
    ensures Extends(p, Append(p, steps)) && Added(p, Append(p, steps)) == steps
  {
    assert (p.log + steps)[..|p.log|] == p.log;
  }

  lemma SpanStep(p: Proc, s: Step)
    ensures Span(p, Append(p, [s]), Phase(s), Phase(s))
  {
    AppendAdds(p, [s]);
  }

  lemma SpanWiden(p: Proc, q: Proc, lo: nat, hi: nat, lo2: nat, hi2: nat)
    requires Span(p, q, lo, hi) && lo2 <= lo && hi <= hi2
    ensures Span(p, q, lo2, hi2)
  {
    Widen(Added(p, q), lo, hi, lo2, hi2);
  }

  lemma SpanNone(p: Proc, lo: nat, hi: nat)
    ensures Span(p, p, lo, hi)
  {
    assert Added(p, p) == [];
  }

  // ---------------------------------------------------------------- the three paths

  /** `--help-actions`: `main` returns nothing; no logging set-up, no action,
      no fork, no PID file, no handlers; only the help is printed and the
      temporary file closed. */
  lemma HelpActionsShortCircuits(p: Proc, args: Args, env: Env)
    requires args.helpActions
    ensures var m := Main(p, args, env);
      m.outcome == Returned(None)
      && m.proc.(log := p.log) == p
      && Added(p, m.proc) == [HelpPrinted, CloseTemp]
      && Process(p, args, env).proc.fs == RunCleanups(p.fs, p.cleanups)
  {
    AppendAdds(p, [HelpPrinted, CloseTemp]);
  }

  /** A one-shot action: `main` returns the dispatcher's result unchanged, and
      never forks, writes a PID file, installs a handler or touches the flag. */
  lemma OneShotVerbatim(p: Proc, args: Args, env: Env)
    requires !args.helpActions && |args.action| > 0
    ensures var m := Main(p, args, env);
      var t := Added(p, m.proc);
      m.outcome == Returned(Some(env.cliRun(args.action, args.hidrawPath)))
      && m.proc.(rootLevel := p.rootLevel, log := p.log) == p
      && m.proc.rootLevel == RootLevel(args.debug)
      && (forall i :: 0 <= i < |t| ==> !DaemonStep(t[i]))
      && RunAction(args.action, args.hidrawPath) in t
  {
    var c := Configure(p, args);
    var steps := [RunAction(args.action, args.hidrawPath), CloseTemp];
    AppendAdds(p, c.log[|p.log|..]);
    assert c.log == p.log + [c.log[|p.log|]];
    AppendAdds(c, steps);
    AddedChain(p, c, Append(c, steps));
  }

  /** From the module's initial state, the help and the one-shot paths leave
      the filesystem exactly as they found it. */
  lemma NoPidFileOutsideDaemon(pid: nat, fs: map<string, string>, args: Args, env: Env)
    requires !DaemonPath(args)
    ensures Process(Initial(pid, fs), args, env).proc.fs == fs
  {
  }

  // ---------------------------------------------------------------- the daemon path

  /** The steps of one run, in order: handlers, startup, the loop, shutdown. */
  lemma RunSpan(p: Proc, startupRaises: bool, shutdownRaises: bool, ticks: seq<Tick>)
    ensures Span(p, RunLoop(p, startupRaises, shutdownRaises, ticks).proc, 7, 10)
  {
    var seg := RunTrace(p, startupRaises, shutdownRaises, ticks);
    var tail := Tail(p, startupRaises, ticks);
    assert Ordered(START) && Within(START, 7, 8) by {
      assert START[1..] == [InstallHandler(SIGINT), Startup] && START[1..][1..] == [Startup] && [Startup][1..] == [];
      assert Within([Startup], 7, 8);
      assert Within([InstallHandler(SIGINT), Startup], 7, 8);
    }
    LoopSegment(seg);
    Widen(seg, 9, 9, 8, 9);
    Then(START, seg, 7, 8, 9);
    assert Ordered(tail) && Within(tail, 10, 10);
    Then(START + seg, tail, 7, 9, 10);
  }

  lemma {:induction false} LoopSegment(seg: seq<Step>)
    requires forall i :: 0 <= i < |seg| ==> InLoop(seg[i])
    ensures Ordered(seg) && Within(seg, 9, 9)
    decreases |seg|
  {
    if seg != [] {
      assert forall i :: 0 <= i < |seg[1..]| ==> seg[1..][i] == seg[i + 1];
      LoopSegment(seg[1..]);
      assert InLoop(seg[0]);
      if |seg| > 1 {
        assert InLoop(seg[1]);
      }
    }
  }

  lemma ConcludeSpan(r: RunResult)
    ensures Span(r.proc, Conclude(r).proc, 11, 11)
  {
    match r.end
    case RunRaised => SpanStep(r.proc, DaemonError);
    case RunReturned => SpanStep(r.proc, CloseTemp);
    case RunPending => SpanNone(r.proc, 11, 11);
  }

  lemma ServeSpan(u: Proc, args: Args, env: Env)
    ensures Span(u, Serve(u, args, env).proc, 4, 11)
  {
    var scanned := Append(u, [SetupScanner]);
    SpanStep(u, SetupScanner);
    if env.setupRaises {
      SpanStep(scanned, DaemonError);
      SpanChain(u, scanned, Append(scanned, [DaemonError]), 4, 4, 11);
    } else {
      WatchSpan(scanned, args, env);
      SpanWiden(scanned, Watch(scanned, args, env).proc, 5, 11, 4, 11);
      SpanChain(u, scanned, Watch(scanned, args, env).proc, 4, 4, 11);
    }
  }

  lemma WatchSpan(scanned: Proc, args: Args, env: Env)
    ensures Span(scanned, Watch(scanned, args, env).proc, 5, 11)
  {
    var watched := Append(scanned, [WatchSuspendResume(args.restartOnWakeUp)]);
    SpanStep(scanned, WatchSuspendResume(args.restartOnWakeUp));
    if env.watchRaises {
      SpanStep(watched, DaemonError);
      SpanChain(scanned, watched, Append(watched, [DaemonError]), 5, 5, 11);
    } else {
      var deferred := Append(watched, [DeferSaves]);
      SpanStep(watched, DeferSaves);
      SpanChain(scanned, watched, deferred, 5, 5, 6);
      var r := RunLoop(deferred, env.startupRaises, env.shutdownRaises, env.ticks);
      RunSpan(deferred, env.startupRaises, env.shutdownRaises, env.ticks);
      SpanWiden(deferred, r.proc, 7, 10, 6, 10);
      RunToEndSpan(r, deferred);
      SpanChain(scanned, deferred, Conclude(r).proc, 5, 6, 11);
    }
  }

  lemma RunToEndSpan(r: RunResult, deferred: Proc)
    requires Span(deferred, r.proc, 6, 10)
    ensures Span(deferred, Conclude(r).proc, 6, 11)
  {
    ConcludeSpan(r);
    SpanChain(deferred, r.proc, Conclude(r).proc, 6, 10, 11);
  }

  /** The daemon sequence performs its steps in the source's order: logging
      set-up, detachment, PID file, udev advisory, scanner, suspend watch,
      deferred saves, handlers, startup, the loop, shutdown, and last the error
      report or the closing of the temporary file. */
  lemma DaemonOrdered(p: Proc, args: Args, env: Env)
    requires DaemonPath(args)
    ensures var t := Added(p, Main(p, args, env).proc);
      forall i, j :: 0 <= i < j < |t| ==> Phase(t[i]) <= Phase(t[j])
  {
    DaemonSpan(p, args, env);
    var t := Added(p, Main(p, args, env).proc);
    forall i, j | 0 <= i < j < |t| ensures Phase(t[i]) <= Phase(t[j]) {
      OrderedPairs(t, i, j);
    }
  }

  lemma DaemonSpan(p: Proc, args: Args, env: Env)
    requires DaemonPath(args)
    ensures Span(p, Main(p, args, env).proc, 0, 11)
  {
    var c := Configure(p, args);
    var cfg := c.log[|p.log|];
    assert c == Append(p.(rootLevel := RootLevel(args.debug)), [cfg]);
    AppendAdds(p.(rootLevel := RootLevel(args.debug)), [cfg]);
    assert Span(p, c, 0, 0);
    assert Main(p, args, env) == DaemonSequence(c, args, env);
    SequenceSpan(c, args, env);
    SpanWiden(c, DaemonSequence(c, args, env).proc, 1, 11, 0, 11);
    SpanChain(p, c, DaemonSequence(c, args, env).proc, 0, 0, 11);
  }

  lemma SequenceSpan(c: Proc, args: Args, env: Env)
    ensures Span(c, DaemonSequence(c, args, env).proc, 1, 11)
  {
    var det := Detach(env.fork);
    if !args.noFork && det.survivor.None? {
      SpanStep(c, ForkFailed(|det.exits|));
      SpanWiden(c, Append(c, [ForkFailed(|det.exits|)]), 1, 1, 1, 11);
    } else {
      var d := if args.noFork then c else Append(c.(pid := det.survivor.value), [Detached(det.survivor.value)]);
      assert DaemonSequence(c, args, env) == Settle(d, args, env);
      assert Span(c, d, 1, 1) by {
        if args.noFork {
          SpanNone(c, 1, 1);
        } else {
          AppendAdds(c.(pid := det.survivor.value), [Detached(det.survivor.value)]);
        }
      }
      SettleSpan(d, args, env);
      SpanWiden(d, Settle(d, args, env).proc, 2, 11, 1, 11);
      SpanChain(c, d, Settle(d, args, env).proc, 1, 1, 11);
    }
  }

  /** The PID-file step logged for a path in an environment. */
  function PidSteps(pidFile: Option<string>, env: Env): seq<Step>
  {
    if !Configured(pidFile) then []
    else if pidFile.value in env.writable && pidFile.value !in env.writeFails then [PidWritten(pidFile.value)]
    else [PidWriteFailed(pidFile.value)]
  }

  /** The paths that exist after the PID step besides those that existed before. */
  function PidPaths(pidFile: Option<string>, env: Env): set<string>
  {
    if Configured(pidFile) && pidFile.value in env.writable then {pidFile.value} else {}
  }

  /** The PID step adds its log line, and the path (if it was opened) to the existing files. */
  lemma PidTrace(d: Proc, args: Args, env: Env)
    ensures var w := WritePid(d, args.pidFile, env.writable, env.writeFails);
      Extends(d, w) && Added(d, w) == PidSteps(args.pidFile, env)
      && w.fs.Keys == d.fs.Keys + PidPaths(args.pidFile, env)
      && w.rootLevel == d.rootLevel && w.running == d.running && w.handlers == d.handlers
  {
    if Configured(args.pidFile) {
      var path := args.pidFile.value;
      if path !in env.writable {
        AppendAdds(d, [PidWriteFailed(path)]);
      } else if path in env.writeFails {
        AppendAdds(d.(fs := d.fs[path := ""]), [PidWriteFailed(path)]);
      } else {
        AppendAdds(d.(fs := d.fs[path := Decimal(d.pid)], cleanups := d.cleanups + [path]), [PidWritten(path)]);
      }
    } else {
      assert Added(d, d) == [];
    }
  }

  lemma SettleSpan(d: Proc, args: Args, env: Env)
    ensures Span(d, Settle(d, args, env).proc, 2, 11)
  {
    var w := WritePid(d, args.pidFile, env.writable, env.writeFails);
    PidSpan(d, args, env);
    var u := if UdevAdvisory(env.platform, w.rootLevel, w.fs.Keys) then Append(w, [UdevWarning]) else w;
    assert Settle(d, args, env) == Serve(u, args, env);
    AdvisedSpan(w, u, env);
    SpanChain(d, w, u, 2, 2, 3);
    ServeSpan(u, args, env);
    SpanWiden(u, Serve(u, args, env).proc, 4, 11, 3, 11);
    SpanChain(d, u, Serve(u, args, env).proc, 2, 3, 11);
  }

  lemma PidSpan(d: Proc, args: Args, env: Env)
    ensures Span(d, WritePid(d, args.pidFile, env.writable, env.writeFails), 2, 2)
  {
    PidTrace(d, args, env);
    if Configured(args.pidFile) {
      var t := PidSteps(args.pidFile, env);
      assert |t| == 1 && Phase(t[0]) == 2 && t[1..] == [];
    }
  }

  lemma AdvisedSpan(w: Proc, u: Proc, env: Env)
    requires u == if UdevAdvisory(env.platform, w.rootLevel, w.fs.Keys) then Append(w, [UdevWarning]) else w
    ensures Span(w, u, 3, 3)
  {
    if UdevAdvisory(env.platform, w.rootLevel, w.fs.Keys) {
      SpanStep(w, UdevWarning);
    } else {
      SpanNone(w, 3, 3);
    }
  }

}

module Outcomes {
  import opened Wrappers
  import opened Levels
  import opened Numerals
  import opened Lifecycle
  import opened Properties
  import opened Dispatch

  /** Reference definition of how the daemon sequence ends once detachment
      has succeeded (or was not asked for): status 1 if a collaborator or the
      startup hook raised, still running while the loop keeps polling, status
      1 if the shutdown hook raised, and a normal return otherwise. */
  function Verdict(running: bool, handlers: set<int>, env: Env): Outcome
  {
    if env.setupRaises || env.watchRaises || env.startupRaises then Exited(1)
    else if WaitsThrough(running, handlers + {SIGTERM, SIGINT}, env.ticks) then StillRunning
    else if env.shutdownRaises then Exited(1)
    else Returned(None)
  }

  /** The guarded block leaves files, cleanups and pid alone and ends as `Verdict` says. */
  lemma ServeOutcome(u: Proc, args: Args, env: Env)
    ensures var m := Serve(u, args, env);
      m.proc.fs == u.fs && m.proc.cleanups == u.cleanups && m.proc.pid == u.pid
      && m.outcome == Verdict(u.running, u.handlers, env)
  {
    var scanned := Append(u, [SetupScanner]);
    if !env.setupRaises {
      var watched := Append(scanned, [WatchSuspendResume(args.restartOnWakeUp)]);
      if !env.watchRaises {
        var deferred := Append(watched, [DeferSaves]);
        RunLoopShape(deferred, env.startupRaises, env.shutdownRaises, env.ticks);
      }
    }
  }

  /** After detachment: the PID step, then the guarded block; only the PID step touches files. */
  lemma SettleOutcome(d: Proc, args: Args, env: Env)
    ensures var m := Settle(d, args, env);
      var w := WritePid(d, args.pidFile, env.writable, env.writeFails);
      m.proc.fs == w.fs && m.proc.cleanups == w.cleanups && m.proc.pid == d.pid
      && m.outcome == Verdict(d.running, d.handlers, env)
  {
    var w := WritePid(d, args.pidFile, env.writable, env.writeFails);
    var u := if UdevAdvisory(env.platform, w.rootLevel, w.fs.Keys) then Append(w, [UdevWarning]) else w;
    ServeOutcome(u, args, env);
  }

  /** How `main` ends on the daemon path: status 1 when a fork fails,
      otherwise as `Verdict` says. Neither the PID file, nor the udev
      advisory, nor the platform has any say. */
  lemma DaemonExitStatus(p: Proc, args: Args, env: Env)
    requires DaemonPath(args)
    ensures Main(p, args, env).outcome == if ForkFails(args, env) then Exited(1) else Verdict(p.running, p.handlers, env)
  {
    var c := Configure(p, args);
    if !ForkFails(args, env) {
      var det := Detach(env.fork);
      var d := if args.noFork then c else Append(c.(pid := det.survivor.value), [Detached(det.survivor.value)]);
      SettleOutcome(d, args, env);
    }
  }

  /** Failing to write the PID file is not fatal: whether the path can be
      opened, and whether the write then fails, never changes how `main` ends. */
  lemma PidFileNonFatal(p: Proc, args: Args, env: Env, writable: set<string>, writeFails: set<string>)
    ensures Main(p, args, env).outcome == Main(p, args, env.(writable := writable, writeFails := writeFails)).outcome
  {
    if DaemonPath(args) {
      DaemonExitStatus(p, args, env);
      DaemonExitStatus(p, args, env.(writable := writable, writeFails := writeFails));
    }
  }

  /** A failed fork leaves no daemon state behind: no PID file, no cleanup,
      no handler, and the process exits 1. */
  lemma ForkFailureLeavesNothing(p: Proc, args: Args, env: Env)
    requires DaemonPath(args) && ForkFails(args, env)
    ensures var m := Main(p, args, env);
      m.outcome == Exited(1) && m.proc.fs == p.fs && m.proc.cleanups == p.cleanups
      && m.proc.handlers == p.handlers && m.proc.pid == p.pid
  {
  }

  /** With a writable path, the PID file holds the surviving daemon's pid
      (never that of a parent that exited during detachment) for as long as the
      daemon runs, and is gone once `main` has returned or exited. */
  lemma PidFileLifetime(p: Proc, args: Args, env: Env)
    requires DaemonPath(args) && !ForkFails(args, env)
    requires Configured(args.pidFile) && args.pidFile.value in env.writable && args.pidFile.value !in env.writeFails
    ensures var m := Process(p, args, env);
      var path := args.pidFile.value;
      m.proc.pid == DaemonPid(p, args, env)
      && (m.outcome == StillRunning ==>
            path in m.proc.fs && IsDigits(m.proc.fs[path]) && ValueOf(m.proc.fs[path]) == DaemonPid(p, args, env))
      && (m.outcome != StillRunning ==> path !in m.proc.fs)
  {
    var path := args.pidFile.value;
    var c := Configure(p, args);
    var det := Detach(env.fork);
    var d := if args.noFork then c else Append(c.(pid := det.survivor.value), [Detached(det.survivor.value)]);
    assert d.pid == DaemonPid(p, args, env);
    SettleOutcome(d, args, env);
    var w := WritePid(d, args.pidFile, env.writable, env.writeFails);
    PidFileWritten(d, path, env.writable, env.writeFails);
    var m := Main(p, args, env);
    assert m == Settle(d, args, env);
    if m.outcome != StillRunning {
      CleanupsRemove(m.proc.fs, m.proc.cleanups, path);
      assert path in m.proc.cleanups by {
        assert m.proc.cleanups[|m.proc.cleanups| - 1] == path;
      }
    }
  }

  /** A PID file that was opened but not written is left empty and outlives
      the process: no cleanup was registered for it. */
  lemma PidFileLeftEmpty(p: Proc, args: Args, env: Env)
    requires DaemonPath(args) && !ForkFails(args, env)
    requires Configured(args.pidFile) && args.pidFile.value in env.writable && args.pidFile.value in env.writeFails
    requires args.pidFile.value !in p.cleanups
    ensures var m := Process(p, args, env);
      args.pidFile.value in m.proc.fs && m.proc.fs[args.pidFile.value] == ""
  {
    var path := args.pidFile.value;
    var c := Configure(p, args);
    var det := Detach(env.fork);
    var d := if args.noFork then c else Append(c.(pid := det.survivor.value), [Detached(det.survivor.value)]);
    SettleOutcome(d, args, env);
    PidFileTruncated(d, path, env.writable, env.writeFails);
    var m := Main(p, args, env);
    assert m == Settle(d, args, env);
    CleanupsRemove(m.proc.fs, m.proc.cleanups, path);
  }

  lemma {:induction false} WithinAt(t: seq<Step>, lo: nat, hi: nat, i: nat)
    requires Within(t, lo, hi) && i < |t|
    ensures lo <= Phase(t[i]) <= hi
    decreases i
  {
    if i > 0 {
      WithinAt(t[1..], lo, hi, i - 1);
    }
  }

  /** Detachment is attempted exactly without `--no-fork`: the step after the
      logging set-up is then the detachment, or the failed fork, which ends the
      trace; with `--no-fork` no step of detachment appears at all. */
  lemma DaemonizeIffForking(p: Proc, args: Args, env: Env)
    requires DaemonPath(args)
    ensures var t := Added(p, Main(p, args, env).proc);
      |t| >= 1 && t[0].ConfigureLogging?
      && (!args.noFork && env.fork.Forked? ==> |t| >= 2 && t[1] == Detached(env.fork.daemonPid))
      && (ForkFails(args, env) ==> t == [t[0], ForkFailed(|Detach(env.fork).exits|)])
      && (args.noFork ==> forall i :: 0 <= i < |t| ==> Phase(t[i]) != 1)
  {
    var c := Configure(p, args);
    var cfg := c.log[|p.log|];
    AppendAdds(p.(rootLevel := RootLevel(args.debug)), [cfg]);
    assert Extends(p, c) && Added(p, c) == [cfg];
    var det := Detach(env.fork);
    if ForkFails(args, env) {
      AppendAdds(c, [ForkFailed(|det.exits|)]);
      AddedChain(p, c, Append(c, [ForkFailed(|det.exits|)]));
    } else {
      var d := if args.noFork then c else Append(c.(pid := det.survivor.value), [Detached(det.survivor.value)]);
      var s := Settle(d, args, env).proc;
      SettleSpan(d, args, env);
      assert Main(p, args, env).proc == s;
      if args.noFork {
        AddedChain(p, c, s);
        var t := Added(p, s);
        forall i | 0 <= i < |t| ensures Phase(t[i]) != 1 {
          if i > 0 {
            WithinAt(Added(c, s), 2, 11, i - 1);
          }
        }
      } else {
        AppendAdds(c.(pid := det.survivor.value), [Detached(det.survivor.value)]);
        AddedChain(p, c, d);
        AddedChain(p, d, s);
      }
    }
  }

  /** Once logging is configured the advisory depends only on the platform
      and the three candidate rule files: warnings are always enabled. */
  lemma UdevAdvisoryConfigured(platform: string, debug: nat, files: set<string>)
    ensures UdevAdvisory(platform, RootLevel(debug), files) <==>
      platform == "Linux" && forall i :: 0 <= i < |UDEV_DIRS| ==> UDEV_DIRS[i] + UDEV_FILE !in files
  {
    WarningsAlwaysEnabled(debug);
    if platform == "Linux" && UdevAdvisory(platform, RootLevel(debug), files) {
      forall i | 0 <= i < |UDEV_DIRS| ensures UDEV_DIRS[i] + UDEV_FILE !in files {
        assert i == 0 || i == 1 || i == 2;
      }
    }
  }

  // ---------------------------------------------------------------- the steps that occur

  /** The steps that end `main` for each outcome. */
  function Closing(o: Outcome): seq<Step>
  {
    match o
    case Exited(_) => [DaemonError]
    case StillRunning => []
    case Returned(_) => [CloseTemp]
  }

  /** The collaborators' set-up that precedes the run loop. */
  function Collaborators(args: Args): seq<Step>
  {
    [SetupScanner, WatchSuspendResume(args.restartOnWakeUp), DeferSaves]
  }

  /** The step `Conclude` adds is the closing step of its outcome. */
  lemma ConcludeTrace(r: RunResult)
    ensures Extends(r.proc, Conclude(r).proc) && Added(r.proc, Conclude(r).proc) == Closing(Conclude(r).outcome)
  {
    AppendAdds(r.proc, Closing(Conclude(r).outcome));
  }

  /** When neither collaborator raises, the guarded block performs exactly:
      the collaborators' set-up, the run loop, and the closing step. */
  lemma ServeTrace(u: Proc, args: Args, env: Env) returns (seg: seq<Step>)
    requires !env.setupRaises && !env.watchRaises
    ensures var m := Serve(u, args, env);
      Extends(u, m.proc)
      && (forall i :: 0 <= i < |seg| ==> InLoop(seg[i]))
      && Added(u, m.proc) == Collaborators(args) + ((START + seg + Tail(u, env.startupRaises, env.ticks))
                                                    + Closing(Verdict(u.running, u.handlers, env)))
  {
    var deferred := Append(u, Collaborators(args));
    assert u.log + Collaborators(args) == u.log + [SetupScanner] + [WatchSuspendResume(args.restartOnWakeUp)] + [DeferSaves];
    var r := RunLoop(deferred, env.startupRaises, env.shutdownRaises, env.ticks);
    assert Serve(u, args, env) == Conclude(r);
    seg := RunTrace(deferred, env.startupRaises, env.shutdownRaises, env.ticks);
    ServeOutcome(u, args, env);
    ConcludeTrace(r);
    AppendAdds(u, Collaborators(args));
    AddedChain(deferred, r.proc, Conclude(r).proc);
    AddedChain(u, deferred, Conclude(r).proc);
  }

  /** After detachment the process performs exactly: the PID step, the udev
      advisory when it applies, then the guarded block. */
  lemma SettleTrace(d: Proc, args: Args, env: Env) returns (advisory: bool, seg: seq<Step>)
    requires !env.setupRaises && !env.watchRaises
    ensures advisory <==> UdevAdvisory(env.platform, d.rootLevel, d.fs.Keys + PidPaths(args.pidFile, env))
    ensures var m := Settle(d, args, env);
      Extends(d, m.proc)
      && (forall i :: 0 <= i < |seg| ==> InLoop(seg[i]))
      && Added(d, m.proc) == PidSteps(args.pidFile, env) + ((if advisory then [UdevWarning] else [])
           + (Collaborators(args) + ((START + seg + Tail(d, env.startupRaises, env.ticks))
                                      + Closing(Verdict(d.running, d.handlers, env)))))
  {
    var w := WritePid(d, args.pidFile, env.writable, env.writeFails);
    PidTrace(d, args, env);
    advisory := UdevAdvisory(env.platform, w.rootLevel, w.fs.Keys);
    var note: seq<Step> := if advisory then [UdevWarning] else [];
    var u := if advisory then Append(w, [UdevWarning]) else w;
    assert Settle(d, args, env) == Serve(u, args, env);
    assert Extends(w, u) && Added(w, u) == note by {
      if advisory {
        AppendAdds(w, [UdevWarning]);
      } else {
        assert Added(w, w) == [];
      }
    }
    seg := ServeTrace(u, args, env);
    AddedChain(w, u, Serve(u, args, env).proc);
    AddedChain(d, w, Serve(u, args, env).proc);
  }

  /** The logging set-up and the detachment, when no fork fails. */
  lemma DetachTrace(p: Proc, args: Args, env: Env) returns (d: Proc)
    requires DaemonPath(args) && !ForkFails(args, env)
    ensures Main(p, args, env) == Settle(d, args, env)
    ensures d.running == p.running && d.handlers == p.handlers && d.fs == p.fs && d.rootLevel == RootLevel(args.debug)
    ensures Extends(p, d)
    ensures Added(p, d) == [ConfigureLogging(RootLevel(args.debug), FileLevel(args.debug),
                              if HasStreamHandler(args.debug, args.noFork) then Some(LogLevel(args.debug)) else None)]
                           + (if args.noFork then [] else [Detached(env.fork.daemonPid)])
  {
    var c := Configure(p, args);
    var cfg := ConfigureLogging(RootLevel(args.debug), FileLevel(args.debug),
                                if HasStreamHandler(args.debug, args.noFork) then Some(LogLevel(args.debug)) else None);
    assert c == Append(p.(rootLevel := RootLevel(args.debug)), [cfg]);
    AppendAdds(p.(rootLevel := RootLevel(args.debug)), [cfg]);
    assert Main(p, args, env) == DaemonSequence(c, args, env);
    if args.noFork {
      d := c;
      assert [cfg] + [] == [cfg];
    } else {
      d := Append(c.(pid := env.fork.daemonPid), [Detached(env.fork.daemonPid)]);
      AppendAdds(c.(pid := env.fork.daemonPid), [Detached(env.fork.daemonPid)]);
      AddedChain(p, c, d);
    }
  }

  /** The daemon path, when no fork fails and neither collaborator raises,
      performs exactly: the logging set-up, the detachment unless
      `--no-fork`, the PID step, the udev advisory when it applies, the
      scanner, the suspend watch, deferred saves, the handlers and startup,
      the loop, shutdown unless startup raised or the loop is still polling,
      and the closing step for how `main` ends. */
  lemma DaemonTrace(p: Proc, args: Args, env: Env) returns (advisory: bool, seg: seq<Step>)
    requires DaemonPath(args) && !ForkFails(args, env) && !env.setupRaises && !env.watchRaises
    ensures advisory <==> UdevAdvisory(env.platform, RootLevel(args.debug), p.fs.Keys + PidPaths(args.pidFile, env))
    ensures forall i :: 0 <= i < |seg| ==> InLoop(seg[i])
    ensures Added(p, Main(p, args, env).proc)
      == ([ConfigureLogging(RootLevel(args.debug), FileLevel(args.debug),
                            if HasStreamHandler(args.debug, args.noFork) then Some(LogLevel(args.debug)) else None)]
          + (if args.noFork then [] else [Detached(env.fork.daemonPid)]))
         + (PidSteps(args.pidFile, env) + ((if advisory then [UdevWarning] else [])
            + (Collaborators(args) + ((START + seg + Tail(p, env.startupRaises, env.ticks))
                                       + Closing(Verdict(p.running, p.handlers, env))))))
  {
    var d := DetachTrace(p, args, env);
    advisory, seg := SettleTrace(d, args, env);
    AddedChain(p, d, Settle(d, args, env).proc);
    assert Tail(d, env.startupRaises, env.ticks) == Tail(p, env.startupRaises, env.ticks);
  }

  /** Neither hook among the steps of `t`. */
  predicate NoHooks(t: seq<Step>)
  {
    forall i :: 0 <= i < |t| ==> !t[i].Startup? && !t[i].Shutdown?
  }

  /** Steps without hook calls in front of a trace do not change its hook counts. */
  lemma SkipNoHooks(a: seq<Step>, b: seq<Step>)
    requires NoHooks(a)
    ensures Count(a + b, Startup) == Count(b, Startup) && Count(a + b, Shutdown) == Count(b, Shutdown)
  {
    CountAbsent(a, Startup);
    CountAbsent(a, Shutdown);
    CountAppend(a, b, Startup);
    CountAppend(a, b, Shutdown);
  }

  /** The hook counts of a daemon trace of `DaemonTrace`'s shape. */
  lemma TraceCounts(pre: seq<Step>, pid: seq<Step>, note: seq<Step>, collab: seq<Step>,
                    seg: seq<Step>, tail: seq<Step>, closing: seq<Step>)
    requires NoHooks(pre) && NoHooks(pid) && NoHooks(note) && NoHooks(collab) && NoHooks(closing)
    requires forall i :: 0 <= i < |seg| ==> InLoop(seg[i])
    requires tail == [] || tail == [Shutdown]
    ensures var t := pre + (pid + (note + (collab + ((START + seg + tail) + closing))));
      Count(t, Startup) == 1 && Count(t, Shutdown) == |tail|
  {
    var run := START + seg + tail;
    RunCounts(seg, tail);
    CountAbsent(closing, Startup);
    CountAbsent(closing, Shutdown);
    CountAppend(run, closing, Startup);
    CountAppend(run, closing, Shutdown);
    SkipNoHooks(collab, run + closing);
    SkipNoHooks(note, collab + (run + closing));
    SkipNoHooks(pid, note + (collab + (run + closing)));
    SkipNoHooks(pre, pid + (note + (collab + (run + closing))));
  }

  /** On the daemon path, when no fork fails and neither collaborator raises,
      `main` reaches the run loop: startup is called exactly once, and
      shutdown exactly once unless startup raised or the loop is still polling. */
  lemma DaemonReachesLoop(p: Proc, args: Args, env: Env)
    requires DaemonPath(args) && !ForkFails(args, env) && !env.setupRaises && !env.watchRaises
    ensures var t := Added(p, Main(p, args, env).proc);
      Count(t, Startup) == 1
      && Count(t, Shutdown) == (if env.startupRaises || StillPolling(p, env.startupRaises, env.ticks) then 0 else 1)
  {
    var advisory, seg := DaemonTrace(p, args, env);
    var pre := [ConfigureLogging(RootLevel(args.debug), FileLevel(args.debug),
                                 if HasStreamHandler(args.debug, args.noFork) then Some(LogLevel(args.debug)) else None)]
               + (if args.noFork then [] else [Detached(env.fork.daemonPid)]);
    var note: seq<Step> := if advisory then [UdevWarning] else [];
    var closing := Closing(Verdict(p.running, p.handlers, env));
    assert NoHooks(pre) by {
      assert forall i :: 1 <= i < |pre| ==> pre[i].Detached?;
    }
    TraceCounts(pre, PidSteps(args.pidFile, env), note, Collaborators(args), seg, Tail(p, env.startupRaises, env.ticks), closing);
  }

  lemma RunCounts(seg: seq<Step>, tail: seq<Step>)
    requires forall i :: 0 <= i < |seg| ==> InLoop(seg[i])
    requires tail == [] || tail == [Shutdown]
    ensures Count(START + seg + tail, Startup) == 1 && Count(START + seg + tail, Shutdown) == |tail|
  {
    StartCounts();
    CountAbsent(seg, Startup);
    CountAbsent(seg, Shutdown);
    assert Count(tail, Startup) == 0 && Count(tail, Shutdown) == |tail| by {
      if tail != [] {
        assert tail[1..] == [];
      }
    }
    CountAppend(START, seg, Startup);
    CountAppend(START, seg, Shutdown);
    CountAppend(START + seg, tail, Startup);
    CountAppend(START + seg, tail, Shutdown);
  }
}
