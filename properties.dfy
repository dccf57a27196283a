/** What the daemon's lifecycle guarantees, proved about the functions of
    `Lifecycle` (and so, through their contracts, about the class in
    daemon.dfy). */
module Properties {
  import opened Wrappers
  import opened Levels
  import opened Numerals
  import opened Lifecycle

  // ---------------------------------------------------------------- helpers

  /** Number of occurrences of `s` in `t`. */
  function Count(t: seq<Step>, s: Step): nat
    decreases |t|
  {
    if t == [] then 0 else (if t[0] == s then 1 else 0) + Count(t[1..], s)
  }

  lemma {:induction false} CountAppend(a: seq<Step>, b: seq<Step>, s: Step)
    ensures Count(a + b, s) == Count(a, s) + Count(b, s)
    decreases |a|
  {
    if a != [] {
      assert (a + b)[0] == a[0] && (a + b)[1..] == a[1..] + b;
      CountAppend(a[1..], b, s);
    } else {
      assert a + b == b;
    }
  }

  lemma {:induction false} CountAbsent(t: seq<Step>, s: Step)
    requires forall i :: 0 <= i < |t| ==> t[i] != s
    ensures Count(t, s) == 0
    decreases |t|
  {
    if t != [] {
      CountAbsent(t[1..], s);
    }
  }

  /** The steps performed after state `p`, when `q` extends its log. */
  function Added(p: Proc, q: Proc): seq<Step>
  {
    if |p.log| <= |q.log| then q.log[|p.log|..] else []
  }

  predicate Extends(p: Proc, q: Proc)
  {
    |p.log| <= |q.log| && q.log[..|p.log|] == p.log
  }

  /** A tick that ends the loop: an exception, or a signal whose handler is installed. */
  predicate Stops(t: Tick, handlers: set<int>)
  {
    t.Fault? || (t.Signal? && t.signum in handlers)
  }

  /** Steps only the polling loop performs. */
  predicate InLoop(s: Step)
  {
    s.Sleep? || s.DumpTraceback? || s.StopRequested? || s.LoopError?
  }

  /** The loop, entered with these flag and handlers, never leaves within the given ticks. */
  predicate WaitsThrough(running: bool, handlers: set<int>, ticks: seq<Tick>)
  {
    running && forall i :: 0 <= i < |ticks| ==> !Stops(ticks[i], handlers)
  }

  // ---------------------------------------------------------------- signal handler

  /** The handler clears the flag for every signal number, reports the reason
      as the last step, and touches nothing else. */
  lemma HandlerStops(p: Proc, signum: int)
    ensures var q := HandleSig(p, signum);
      !q.running && Extends(p, q) && q.log[|q.log| - 1] == StopRequested(Reason(signum))
      && q.(running := p.running, log := p.log) == p
  {
  }

  /** A second signal changes nothing but the log: the flag stays false. */
  lemma HandlerIdempotent(p: Proc, first: int, second: int)
    ensures var once := HandleSig(p, first);
      var twice := HandleSig(once, second);
      !twice.running && twice.(log := once.log) == once
  {
  }

  /** Once logging is configured, a traceback is dumped exactly for SIGINT with at least two `-d`. */
  lemma TracebackOnlyWhenVerbose(p: Proc, args: Args, signum: int)
    ensures var q := HandleSig(Configure(p, args), signum);
      (DumpTraceback in Added(Configure(p, args), q)) <==> signum == SIGINT && args.debug >= 2
  {
    InfoEnabledIff(args.debug);
    var c := Configure(p, args);
    var q := HandleSig(c, signum);
    assert Added(c, q) == (if signum == SIGINT && Enabled(c.rootLevel, INFO) then [DumpTraceback] else [])
                          + [StopRequested(Reason(signum))];
  }

  // ---------------------------------------------------------------- PID file

  /** Without a path (absent or empty) nothing at all happens. */
  lemma PidFileUnconfigured(p: Proc, pidFile: Option<string>, writable: set<string>, writeFails: set<string>)
    requires !Configured(pidFile)
    ensures WritePid(p, pidFile, writable, writeFails) == p
  {
  }

  /** On success the file reads back as the process's pid, exactly one cleanup
      (for that path) is registered, and no other file changes. */
  lemma PidFileWritten(p: Proc, path: string, writable: set<string>, writeFails: set<string>)
    requires path != "" && path in writable && path !in writeFails
    ensures var q := WritePid(p, Some(path), writable, writeFails);
      path in q.fs && IsDigits(q.fs[path]) && ValueOf(q.fs[path]) == p.pid
      && q.cleanups == p.cleanups + [path]
      && (forall f :: f != path ==> (f in q.fs <==> f in p.fs))
      && (forall f :: f != path && f in p.fs ==> q.fs[f] == p.fs[f])
      && q.running == p.running && q.handlers == p.handlers && q.pid == p.pid
  {
    ValueOfDecimal(p.pid);
  }

  /** When the file cannot be opened the error is logged and swallowed: no
      file, no cleanup, nothing raised. */
  lemma PidFileFailure(p: Proc, path: string, writable: set<string>, writeFails: set<string>)
    requires path != "" && path !in writable
    ensures WritePid(p, Some(path), writable, writeFails) == Append(p, [PidWriteFailed(path)])
  {
  }

  /** When the file was opened but the write failed, the error is logged and
      swallowed, the file is left empty, and no cleanup is registered. */
  lemma PidFileTruncated(p: Proc, path: string, writable: set<string>, writeFails: set<string>)
    requires path != "" && path in writable && path in writeFails
    ensures var q := WritePid(p, Some(path), writable, writeFails);
      path in q.fs && q.fs[path] == "" && q.fs[path] != Decimal(p.pid)
      && q.cleanups == p.cleanups && Added(p, q) == [PidWriteFailed(path)]
      && (forall f :: f != path ==> (f in q.fs <==> f in p.fs))
      && (forall f :: f != path && f in p.fs ==> q.fs[f] == p.fs[f])
      && q.(fs := p.fs, log := p.log) == p
  {
  }

  /** The exit handlers delete exactly the registered files that still exist
      and leave every other file as it was. */
  lemma {:induction false} CleanupsRemove(fs: map<string, string>, paths: seq<string>, f: string)
    ensures f in RunCleanups(fs, paths) <==> f in fs && f !in paths
    ensures f in RunCleanups(fs, paths) ==> RunCleanups(fs, paths)[f] == fs[f]
    decreases |paths|
  {
    if paths != [] {
      var last := paths[|paths| - 1];
      var init := paths[..|paths| - 1];
      assert paths == init + [last];
      assert f in paths <==> f in init || f == last;
      CleanupsRemove(Unlink(fs, last), init, f);
    }
  }

  // ---------------------------------------------------------------- run loop

  /** The loop only adds loop steps, changes nothing but the flag and the log,
      and reports `Stopped` exactly when it left because the flag was false. */
  lemma {:induction false} LoopFrame(p: Proc, ticks: seq<Tick>)
    ensures var r := Loop(p, ticks);
      r.proc.(running := p.running, log := p.log) == p
      && Extends(p, r.proc)
      && (forall i :: |p.log| <= i < |r.proc.log| ==> InLoop(r.proc.log[i]))
      && (r.end == Stopped <==> !r.proc.running)
      && (!p.running ==> r == LoopResult(p, Stopped))
    decreases |ticks|
  {
    if p.running && ticks != [] {
      var slept := Append(p, [Sleep]);
      match ticks[0]
      case Quiet =>
        LoopFrame(slept, ticks[1..]);
      case Signal(n) =>
        LoopFrame(if n in p.handlers then HandleSig(slept, n) else slept, ticks[1..]);
      case Fault =>
    }
  }

  /** With the flag set, the loop runs through every tick exactly when none of
      them is an exception or a handled signal. */
  lemma {:induction false} LoopPendingIff(p: Proc, ticks: seq<Tick>)
    ensures Loop(p, ticks).end == Pending <==> WaitsThrough(p.running, p.handlers, ticks)
    decreases |ticks|
  {
    if p.running && ticks != [] {
      var slept := Append(p, [Sleep]);
      assert forall i :: 1 <= i < |ticks| ==> ticks[1..][i - 1] == ticks[i];
      match ticks[0]
      case Quiet =>
        LoopPendingIff(slept, ticks[1..]);
      case Signal(n) =>
        LoopPendingIff(if n in p.handlers then HandleSig(slept, n) else slept, ticks[1..]);
      case Fault =>
    }
  }

  /** With the flag set, the loop stops cleanly exactly when a handled signal
      arrives before any exception. */
  lemma {:induction false} LoopStoppedIff(p: Proc, ticks: seq<Tick>)
    requires p.running
    ensures Loop(p, ticks).end == Stopped <==>
      exists i :: 0 <= i < |ticks| && ticks[i].Signal? && ticks[i].signum in p.handlers
                  && forall j :: 0 <= j < i ==> !Stops(ticks[j], p.handlers)
    decreases |ticks|
  {
    if ticks != [] {
      var slept := Append(p, [Sleep]);
      var rest := ticks[1..];
      assert forall i :: 1 <= i < |ticks| ==> rest[i - 1] == ticks[i];
      match ticks[0]
      case Quiet =>
        LoopStoppedIff(slept, rest);
        StoppedShift(ticks, p.handlers);
      case Signal(n) =>
        if n in p.handlers {
          assert Loop(HandleSig(slept, n), rest).end == Stopped;
        } else {
          LoopStoppedIff(slept, rest);
          StoppedShift(ticks, p.handlers);
        }
      case Fault =>
        assert Stops(ticks[0], p.handlers);
    }
  }

  /** A first tick that does not stop the loop shifts the witness of a later handled signal by one. */
  lemma StoppedShift(ticks: seq<Tick>, handlers: set<int>)
    requires ticks != [] && !Stops(ticks[0], handlers)
    ensures (exists i :: 0 <= i < |ticks| && ticks[i].Signal? && ticks[i].signum in handlers
                         && forall j :: 0 <= j < i ==> !Stops(ticks[j], handlers))
        <==> (exists i :: 0 <= i < |ticks[1..]| && ticks[1..][i].Signal? && ticks[1..][i].signum in handlers
                         && forall j :: 0 <= j < i ==> !Stops(ticks[1..][j], handlers))
  {
    var rest := ticks[1..];
    if exists i :: 0 <= i < |ticks| && ticks[i].Signal? && ticks[i].signum in handlers
                   && forall j :: 0 <= j < i ==> !Stops(ticks[j], handlers) {
      var i :| 0 <= i < |ticks| && ticks[i].Signal? && ticks[i].signum in handlers
               && forall j :: 0 <= j < i ==> !Stops(ticks[j], handlers);
      assert i != 0;
      assert rest[i - 1] == ticks[i];
      assert forall j :: 0 <= j < i - 1 ==> rest[j] == ticks[j + 1];
    }
    if exists i :: 0 <= i < |rest| && rest[i].Signal? && rest[i].signum in handlers
                   && forall j :: 0 <= j < i ==> !Stops(rest[j], handlers) {
      var i :| 0 <= i < |rest| && rest[i].Signal? && rest[i].signum in handlers
               && forall j :: 0 <= j < i ==> !Stops(rest[j], handlers);
      assert ticks[i + 1] == rest[i];
      assert forall j :: 0 <= j < i + 1 ==> !Stops(ticks[j], handlers) by {
        forall j | 0 <= j < i + 1 ensures !Stops(ticks[j], handlers) {
          if j > 0 { assert ticks[j] == rest[j - 1]; }
        }
      }
    }
  }

  lemma StartCounts()
    ensures Count(START, Startup) == 1 && Count(START, Shutdown) == 0
  {
    assert START[1..] == [InstallHandler(SIGINT), Startup] && START[1..][1..] == [Startup] && [Startup][1..] == [];
    assert Count([Startup], Startup) == 1 && Count([Startup], Shutdown) == 0;
    assert Count(START[1..], Startup) == 1 && Count(START[1..], Shutdown) == 0;
  }

  /** The run loop is still polling when the ticks run out. */
  predicate StillPolling(p: Proc, startupRaises: bool, ticks: seq<Tick>)
  {
    !startupRaises && WaitsThrough(p.running, p.handlers + {SIGTERM, SIGINT}, ticks)
  }

  /** The steps a run ends with: shutdown, unless startup raised or the loop is still polling. */
  function Tail(p: Proc, startupRaises: bool, ticks: seq<Tick>): seq<Step>
  {
    if startupRaises || StillPolling(p, startupRaises, ticks) then [] else [Shutdown]
  }

  /** The trace of a run: handlers, startup, loop steps only, then `Tail`. */
  lemma RunTrace(p: Proc, startupRaises: bool, shutdownRaises: bool, ticks: seq<Tick>) returns (seg: seq<Step>)
    ensures var r := RunLoop(p, startupRaises, shutdownRaises, ticks);
      Extends(p, r.proc)
      && (forall i :: 0 <= i < |seg| ==> InLoop(seg[i]))
      && Added(p, r.proc) == START + seg + Tail(p, startupRaises, ticks)
  {
    var started := Start(p);
    assert started.log == p.log + START;
    if startupRaises {
      seg := [];
      assert Added(p, started) == START;
    } else {
      var l := Loop(started, ticks);
      LoopFrame(started, ticks);
      LoopPendingIff(started, ticks);
      seg := l.proc.log[|started.log|..];
      assert l.proc.log == p.log + START + seg;
      forall i | 0 <= i < |seg| ensures InLoop(seg[i]) {
        assert seg[i] == l.proc.log[|started.log| + i];
      }
    }
  }

  /** The shape of a run: it changes nothing but the flag, the handlers and
      the log; it installs SIGTERM and SIGINT; it is still pending exactly
      while the loop is polling, and raises exactly when startup raised or
      shutdown raised after the loop. */
  lemma RunLoopShape(p: Proc, startupRaises: bool, shutdownRaises: bool, ticks: seq<Tick>)
    ensures var r := RunLoop(p, startupRaises, shutdownRaises, ticks);
      r.proc.(running := p.running, handlers := p.handlers, log := p.log) == p
      && r.proc.handlers == p.handlers + {SIGTERM, SIGINT}
      && (r.end == RunPending <==> StillPolling(p, startupRaises, ticks))
      && (r.end == RunRaised <==> startupRaises || (shutdownRaises && !StillPolling(p, startupRaises, ticks)))
  {
    if !startupRaises {
      LoopFrame(Start(p), ticks);
      LoopPendingIff(Start(p), ticks);
    }
  }

  /** The run loop calls startup exactly once, first after installing the
      SIGTERM and SIGINT handlers; it calls shutdown exactly once, as its last
      step, unless startup raised (shutdown is outside the `try`'s reach then)
      or the loop is still polling. */
  lemma RunLoopShutdownOnce(p: Proc, startupRaises: bool, shutdownRaises: bool, ticks: seq<Tick>)
    ensures var t := Added(p, RunLoop(p, startupRaises, shutdownRaises, ticks).proc);
      |t| >= 3 && t[..3] == START
      && Count(t, Startup) == 1
      && Count(t, Shutdown) == (if startupRaises || StillPolling(p, startupRaises, ticks) then 0 else 1)
      && (forall i :: 0 <= i < |t| - 1 ==> t[i] != Shutdown)
  {
    var seg := RunTrace(p, startupRaises, shutdownRaises, ticks);
    var tail := Tail(p, startupRaises, ticks);
    var t := START + seg + tail;
    assert t[..3] == START;
    StartCounts();
    CountAbsent(seg, Startup);
    CountAbsent(seg, Shutdown);
    CountAppend(START, seg, Startup);
    CountAppend(START, seg, Shutdown);
    CountAppend(START + seg, tail, Startup);
    CountAppend(START + seg, tail, Shutdown);
    assert Count([Shutdown], Shutdown) == 1 && Count([Shutdown], Startup) == 0 by {
      assert [Shutdown][1..] == [];
    }
    forall i | 0 <= i < |t| - 1 ensures t[i] != Shutdown {
      if i < 3 {
        assert t[i] == START[i];
      } else {
        assert t[i] == seg[i - 3] && InLoop(seg[i - 3]);
      }
    }
  }

  /** `_running` is never reset: a loop entered after a signal calls startup,
      does not sleep, and calls shutdown at once, whatever the ticks. */
  lemma SignalBeforeEntry(p: Proc, shutdownRaises: bool, ticks: seq<Tick>)
    requires !p.running
    ensures var r := RunLoop(p, false, shutdownRaises, ticks);
      Added(p, r.proc) == [InstallHandler(SIGTERM), InstallHandler(SIGINT), Startup, Shutdown]
      && r.end != RunPending
  {
    LoopFrame(Start(p), ticks);
  }
}
