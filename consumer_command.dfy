/**
 * `djutils/management/commands/queue_consumer.py`: the `queue_consumer`
 * management command. It takes a lock file for its queue, then dequeues
 * forever with a delay that backs off on empty cycles and wraps back to the
 * default once it reaches the maximum, and releases the lock however it stops.
 */
module ConsumerCommand {
  import opened Wrappers
  import opened Errors
  import opened Text
  import DaemonConsumer

  /** The command's options; `float(...)` of the numbers has already been taken. */
  datatype Options = Options(queueName: string, delay: real, maxDelay: real, backoff: real)

  /** `LOCK_DIR` when `CUE_LOCK_DIR` is not set. */
  const DefaultLockDir := "/var/lock/"

  datatype Config = Config(defaultDelay: real, maxDelay: real, backoff: real)

  /** What one `invoker.dequeue()` of the `cue` invoker gave. */
  type DequeueResult = Result<Option<string>, Raised>

  /** `if result:` — only a non-empty message is truthy. */
  predicate Processed(result: DequeueResult)
  {
    result.Ok? && result.value.Some? && result.value.value != ""
  }

  /** Only CueException is caught; any other exception leaves the loop. */
  predicate Fatal(result: DequeueResult)
  {
    result.Err? && !result.error.CueException?
  }

  /**
   * One pass of the loop: `None` when an exception leaves it; the default delay
   * after a message; after an empty cycle, a sleep of the current delay, which is
   * then scaled if still below the maximum and otherwise reset to the default.
   */
  function Step(cfg: Config, delay: real, result: DequeueResult): (r: Option<(real, seq<real>)>)
    ensures r.None? <==> Fatal(result)
    ensures r.Some? && Processed(result) ==> r.value == (cfg.defaultDelay, [])
    ensures r.Some? && !Processed(result) ==> r.value.1 == [delay]
    ensures r.Some? && !Processed(result) && delay < cfg.maxDelay ==> r.value.0 == delay * cfg.backoff
    ensures r.Some? && !Processed(result) && delay >= cfg.maxDelay ==> r.value.0 == cfg.defaultDelay
  {
    if Fatal(result) then None
    else if Processed(result) then Some((cfg.defaultDelay, []))
    else if delay < cfg.maxDelay then Some((delay * cfg.backoff, [delay]))
    else Some((cfg.defaultDelay, [delay]))
  }

  datatype Trace = Trace(sleeps: seq<real>, delay: real, stop: Raised)

  /** The `while True` loop over a sequence of dequeue results; running out of them is an interrupt. */
  function RunTrace(cfg: Config, delay: real, results: seq<DequeueResult>): Trace
    decreases |results|
  {
    if results == [] then Trace([], delay, Interrupted)
    else
      match Step(cfg, delay, results[0])
      case None => Trace([], delay, results[0].error)
      case Some((d, slept)) =>
        var t := RunTrace(cfg, d, results[1..]);
        Trace(slept + t.sleeps, t.delay, t.stop)
  }

  /** One pass of the loop that does not stop it, followed by the rest of the run. */
  lemma RunTraceStep(cfg: Config, delay: real, results: seq<DequeueResult>)
    requires results != [] && !Fatal(results[0])
    ensures var (d, slept) := Step(cfg, delay, results[0]).value;
      RunTrace(cfg, delay, results) ==
        Trace(slept + RunTrace(cfg, d, results[1..]).sleeps, RunTrace(cfg, d, results[1..]).delay, RunTrace(cfg, d, results[1..]).stop)
  {
  }

  function Max(a: real, b: real): real { if a >= b then a else b }

  /**
   * The delay is not capped: a sleep can reach the maximum times the factor, but no
   * more, because a delay at or above the maximum wraps back to the default.
   */
  lemma {:induction false} SleepsBounded(cfg: Config, delay: real, results: seq<DequeueResult>)
    requires cfg.backoff >= 1.0
    requires delay <= Max(cfg.defaultDelay, cfg.maxDelay * cfg.backoff)
    ensures forall k :: 0 <= k < |RunTrace(cfg, delay, results).sleeps| ==>
      RunTrace(cfg, delay, results).sleeps[k] <= Max(cfg.defaultDelay, cfg.maxDelay * cfg.backoff)
    decreases |results|
  {
    if results != [] {
      match Step(cfg, delay, results[0])
      case None =>
      case Some((d, slept)) =>
        if !Processed(results[0]) && delay < cfg.maxDelay {
          assert (cfg.maxDelay - delay) * cfg.backoff >= 0.0;
          assert d <= cfg.maxDelay * cfg.backoff;
        }
        SleepsBounded(cfg, d, results[1..]);
    }
  }

  /** `n` dequeues that found nothing. */
  function Empties(n: nat): (r: seq<DequeueResult>)
    ensures |r| == n && forall k :: 0 <= k < n ==> r[k] == Ok(None)
  {
    seq(n, k => Ok(None))
  }

  /**
   * The two consumers' rules conflict: with default 1, maximum 1.5 and factor 2,
   * two empty cycles make this command sleep 1 then 2 (above the maximum) and
   * wrap back to 1, while the daemon sleeps 1 then 1.5.
   */
  lemma ConflictingBackoffRules()
    ensures RunTrace(Config(1.0, 1.5, 2.0), 1.0, Empties(2)).sleeps == [1.0, 2.0]
    ensures RunTrace(Config(1.0, 1.5, 2.0), 1.0, Empties(2)).delay == 1.0
    ensures DaemonConsumer.RunTrace(DaemonConsumer.Config(1.0, 1.5, 2.0), 1.0, DaemonConsumer.Empties(2)).sleeps == [1.0, 1.5]
  {
    var cfg := Config(1.0, 1.5, 2.0);
    var none: DequeueResult := Ok(None);
    assert Empties(2) == [none, none] && Empties(2)[1..] == [none];
    assert Step(cfg, 1.0, none).value.0 == 2.0;
    assert Step(cfg, 2.0, none).value.0 == 1.0;
    var dcfg := DaemonConsumer.Config(1.0, 1.5, 2.0);
    assert DaemonConsumer.Empties(2) == [none, none] && DaemonConsumer.Empties(2)[1..] == [none];
    assert DaemonConsumer.Step(dcfg, 1.0, none).value.0 == 2.0;
    assert DaemonConsumer.Step(dcfg, 2.0, none).value.1 == [1.5];
  }

  /** With the default `/var/lock/`, a relative queue name's lock file lies directly in that directory. */
  lemma DefaultLockFile(queueName: string)
    requires queueName == [] || queueName[0] != '/'
    ensures PathJoin(DefaultLockDir, queueName) == "/var/lock/" + queueName
  {
  }

  /** The lock directory: the set of files present in it. */
  class FileSystem {
    var paths: set<string>

    constructor (paths: set<string>)
      ensures this.paths == paths
    {
      this.paths := paths;
    }
  }

  class QueueConsumer {
    /** `LOCK_DIR`: the `CUE_LOCK_DIR` setting, `DefaultLockDir` when unset. */
    const lockDir: string
    var queueName: string
    var defaultDelay: real
    var maxDelay: real
    var backoffFactor: real
    var delay: real
    /** Every `time.sleep` made, in order. */
    var sleeps: seq<real>

    constructor (lockDir: string)
      ensures this.lockDir == lockDir && sleeps == []
    {
      this.lockDir := lockDir;
      sleeps := [];
    }

    function Cfg(): Config
      reads this
    {
      Config(defaultDelay, maxDelay, backoffFactor)
    }

    /** `lock_filename`: `os.path.join(LOCK_DIR, queue_name)`. */
    function LockFilename(): (p: string)
      reads this
      ensures |queueName| <= |p| && p[|p| - |queueName|..] == queueName
      ensures (queueName == [] || queueName[0] != '/') ==> |lockDir| <= |p| && p[..|lockDir|] == lockDir
      ensures queueName != [] && queueName[0] == '/' ==> p == queueName
      ensures (queueName == [] || queueName[0] != '/') && (lockDir == [] || lockDir[|lockDir| - 1] == '/') ==> p == lockDir + queueName
      ensures (queueName == [] || queueName[0] != '/') && lockDir != [] && lockDir[|lockDir| - 1] != '/' ==> p == lockDir + "/" + queueName
    {
      PathJoin(lockDir, queueName)
    }

    /** `acquire_lock`: `False`, creating nothing, when the lock exists; else the lock is created. */
    method AcquireLock(fs: FileSystem) returns (ok: bool)
      modifies fs
      ensures ok <==> LockFilename() !in old(fs.paths)
      ensures fs.paths == old(fs.paths) + {LockFilename()}
    {
      if LockFilename() in fs.paths {
        return false;
      }
      fs.paths := fs.paths + {LockFilename()};
      ok := true;
    }

    /** `release_lock`: removes the lock and answers `True`; `False` when there was none. */
    method ReleaseLock(fs: FileSystem) returns (ok: bool)
      modifies fs
      ensures ok <==> LockFilename() in old(fs.paths)
      ensures fs.paths == old(fs.paths) - {LockFilename()}
    {
      if LockFilename() !in fs.paths {
        return false;
      }
      fs.paths := fs.paths - {LockFilename()};
      ok := true;
    }

    /** One pass of the loop that does not leave it, as `Step` says. */
    method Cycle(result: DequeueResult)
      requires !Fatal(result)
      modifies this
      ensures Cfg() == old(Cfg()) && queueName == old(queueName)
      ensures |old(sleeps)| <= |sleeps| && sleeps[..|old(sleeps)|] == old(sleeps)
      ensures (delay, sleeps[|old(sleeps)|..]) == Step(Cfg(), old(delay), result).value
    {
      if Processed(result) {
        delay := defaultDelay;
        assert sleeps[|old(sleeps)|..] == [];
      } else {
        sleeps := sleeps + [delay];
        assert sleeps[|old(sleeps)|..] == [old(delay)];
        if delay < maxDelay {
          delay := delay * backoffFactor;
          assert Step(Cfg(), old(delay), result).value.0 == old(delay) * Cfg().backoff;
          assert Step(Cfg(), old(delay), result).value.1 == [old(delay)];
          assert delay == old(delay) * Cfg().backoff;
        } else {
          delay := defaultDelay;
        }
      }
    }

    /** The `while True` loop, as `RunTrace` says. */
    method Consume(results: seq<DequeueResult>) returns (stop: Raised)
      modifies this
      ensures Cfg() == old(Cfg()) && queueName == old(queueName) && LockFilename() == old(LockFilename())
      ensures sleeps == old(sleeps) + RunTrace(Cfg(), old(delay), results).sleeps
      ensures delay == RunTrace(Cfg(), old(delay), results).delay
      ensures stop == RunTrace(Cfg(), old(delay), results).stop
    {
      ghost var cfg := Cfg();
      ghost var whole := RunTrace(cfg, delay, results);
      var i := 0;
      while i < |results|
        invariant 0 <= i <= |results| && Cfg() == cfg && queueName == old(queueName)
        invariant old(sleeps) + whole.sleeps == sleeps + RunTrace(cfg, delay, results[i..]).sleeps
        invariant whole.delay == RunTrace(cfg, delay, results[i..]).delay
        invariant whole.stop == RunTrace(cfg, delay, results[i..]).stop
        decreases |results| - i
      {
        assert results[i..][0] == results[i] && results[i..][1..] == results[i + 1..];
        var result := results[i];
        if result.Err? && !result.error.CueException? {
          return result.error;
        }
        RunTraceStep(cfg, delay, results[i..]);
        ghost var before := sleeps;
        ghost var rest := RunTrace(cfg, Step(cfg, delay, result).value.0, results[i + 1..]).sleeps;
        Cycle(result);
        assert sleeps == before + sleeps[|before|..];
        assert before + (sleeps[|before|..] + rest) == sleeps + rest;
        i := i + 1;
      }
      stop := Interrupted;
    }

    /** The `finally` block: the lock is released; failing to release replaces whatever was raised. */
    method Finish(fs: FileSystem, pending: Raised) returns (r: Raised)
      modifies fs
      ensures fs.paths == old(fs.paths) - {LockFilename()}
      ensures LockFilename() in old(fs.paths) ==> r == pending
      ensures LockFilename() !in old(fs.paths) ==> r == CommandError("unable to release lock file " + LockFilename())
    {
      var released := ReleaseLock(fs);
      if !released {
        return CommandError("unable to release lock file " + LockFilename());
      }
      r := pending;
    }

    /**
     * The part of `handle` after validation: an existing lock raises; otherwise
     * the loop runs from the default delay and the lock is released when it
     * stops, so this always ends by raising.
     */
    method RunLocked(fs: FileSystem, results: seq<DequeueResult>) returns (r: Raised)
      modifies this, fs
      ensures Cfg() == old(Cfg()) && queueName == old(queueName)
      ensures LockFilename() in old(fs.paths) ==>
        r == CommandError("lock file " + LockFilename() + " found, exiting") && fs.paths == old(fs.paths) && sleeps == old(sleeps)
      ensures LockFilename() !in old(fs.paths) ==>
        fs.paths == old(fs.paths) &&
        sleeps == old(sleeps) + RunTrace(Cfg(), defaultDelay, results).sleeps &&
        r == RunTrace(Cfg(), defaultDelay, results).stop
    {
      var locked := AcquireLock(fs);
      if !locked {
        return CommandError("lock file " + LockFilename() + " found, exiting");
      }
      ghost var lock := LockFilename();
      assert lock !in old(fs.paths) && fs.paths == old(fs.paths) + {lock};
      delay := defaultDelay;
      var stop := Consume(results);
      assert LockFilename() == lock;
      r := Finish(fs, stop);
      assert fs.paths == old(fs.paths);
    }

    /**
     * `handle`: the options are stored; a backoff below 1 raises before any
     * lock is taken; otherwise the command runs under its lock.
     */
    method Handle(options: Options, fs: FileSystem, results: seq<DequeueResult>) returns (r: Raised)
      modifies this, fs
      ensures queueName == options.queueName && Cfg() == Config(options.delay, options.maxDelay, options.backoff)
      ensures options.backoff < 1.0 ==>
        r == CommandError("backoff must be greater than or equal to 1") && fs.paths == old(fs.paths) && sleeps == old(sleeps)
      ensures options.backoff >= 1.0 && LockFilename() in old(fs.paths) ==>
        r == CommandError("lock file " + LockFilename() + " found, exiting") && fs.paths == old(fs.paths) && sleeps == old(sleeps)
      ensures options.backoff >= 1.0 && LockFilename() !in old(fs.paths) ==>
        fs.paths == old(fs.paths) &&
        sleeps == old(sleeps) + RunTrace(Cfg(), options.delay, results).sleeps &&
        r == RunTrace(Cfg(), options.delay, results).stop
    {
      queueName := options.queueName;
      defaultDelay := options.delay;
      maxDelay := options.maxDelay;
      backoffFactor := options.backoff;
      if backoffFactor < 1.0 {
        return CommandError("backoff must be greater than or equal to 1");
      }
      r := RunLocked(fs, results);
    }
  }
}
