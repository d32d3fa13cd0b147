/**
 * `djutils/queue/bin/consumer.py`: the daemon that dequeues forever, resetting
 * its delay after each processed message and backing off, up to a maximum,
 * when there is nothing to do. Time is not modelled: each sleep is recorded.
 */
module DaemonConsumer {
  import opened Wrappers
  import opened Errors
  import opened Commands
  import CommandRegistry

  /** The command-line options; `float(...)` of each has already been taken. */
  datatype Options = Options(delay: real, maxDelay: real, backoff: real, pidfile: string, logfile: string)

  /** The option parser's defaults. */
  const DefaultOptions := Options(0.1, 60.0, 1.15, "", "")

  /** The three numbers the delay rule uses. */
  datatype Config = Config(defaultDelay: real, maxDelay: real, backoff: real)

  /** What one call of `invoker.dequeue()` gave: a message, nothing, or an exception. */
  type DequeueResult = Result<Option<string>, Raised>

  /** `if result:` — only a non-empty message is truthy. */
  predicate Processed(result: Result<Option<string>, Raised>)
  {
    result.Ok? && result.value.Some? && result.value.value != ""
  }

  /** Only QueueException is caught and counted as an empty cycle; anything else ends the daemon. */
  predicate Fatal(result: Result<Option<string>, Raised>)
  {
    result.Err? && !result.error.QueueException?
  }

  function Min(a: real, b: real): real { if a <= b then a else b }

  /** `d * f^n`: `d` scaled `n` times by the factor `f`. */
  function Grow(d: real, f: real, n: nat): real
  {
    if n == 0 then d else Grow(d, f, n - 1) * f
  }

  /**
   * One `process_message`: `None` when the exception is re-raised, else the new
   * delay and what was slept: nothing and the default delay after a processed
   * message; after an empty cycle the clamped delay, then that delay times the factor.
   */
  function Step(cfg: Config, delay: real, result: DequeueResult): (r: Option<(real, seq<real>)>)
    ensures r.None? <==> Fatal(result)
    ensures r.Some? && Processed(result) ==> r.value == (cfg.defaultDelay, [])
    ensures r.Some? && !Processed(result) ==>
      r.value.1 == [Min(delay, cfg.maxDelay)] && r.value.0 == Min(delay, cfg.maxDelay) * cfg.backoff
  {
    if Fatal(result) then None
    else if Processed(result) then Some((cfg.defaultDelay, []))
    else
      var d := Min(delay, cfg.maxDelay);
      Some((d * cfg.backoff, [d]))
  }

  /** What a run over a sequence of dequeue results sleeps, the delay it ends with, and how it stops. */
  datatype Trace = Trace(sleeps: seq<real>, delay: real, stop: Raised)

  /** `run()`: `process_message` until an exception escapes; running out of results is an interrupt. */
  function RunTrace(cfg: Config, delay: real, results: seq<DequeueResult>): Trace
    decreases |results|
  {
    if results == [] then Trace([], delay, Interrupted)
    else
      match Step(cfg, delay, results[0])
      case None => Trace([], delay, results[0].error)
      case Some((d, slept)) =>
        var t := RunTrace(cfg, d, results[1..]);
        Trace(slept + t.sleeps, t.delay, t.stop)
  }

  /** One pass of the loop that does not stop it, followed by the rest of the run. */
  lemma RunTraceStep(cfg: Config, delay: real, results: seq<DequeueResult>)
    requires results != [] && !Fatal(results[0])
    ensures var (d, slept) := Step(cfg, delay, results[0]).value;
      RunTrace(cfg, delay, results) ==
        Trace(slept + RunTrace(cfg, d, results[1..]).sleeps, RunTrace(cfg, d, results[1..]).delay, RunTrace(cfg, d, results[1..]).stop)
  {
  }

  /** The daemon never sleeps longer than the maximum delay, whatever the factor. */
  lemma {:induction false} SleepsAtMostMax(cfg: Config, delay: real, results: seq<DequeueResult>)
    ensures forall k :: 0 <= k < |RunTrace(cfg, delay, results).sleeps| ==> RunTrace(cfg, delay, results).sleeps[k] <= cfg.maxDelay
    decreases |results|
  {
    if results != [] {
      match Step(cfg, delay, results[0])
      case None =>
      case Some((d, slept)) =>
        SleepsAtMostMax(cfg, d, results[1..]);
    }
  }

  /** `n` dequeues that found nothing. */
  function Empties(n: nat): (r: seq<DequeueResult>)
    ensures |r| == n && forall k :: 0 <= k < n ==> r[k] == Ok(None)
  {
    seq(n, k => Ok(None))
  }

  /** Clamping then scaling by `f >= 1` is the same as scaling then clamping, for a non-negative bound. */
  lemma ClampScale(x: real, m: real, f: real)
    requires m >= 0.0 && f >= 1.0
    ensures Min(Min(x, m) * f, m) == Min(x * f, m)
  {
    if x > m {
      assert m * f >= m * 1.0;
      assert x * f >= x * 1.0 by {
        assert x >= 0.0;
      }
    }
  }

  /** An empty cycle sleeps the clamped delay and hands the scaled delay to the next one. */
  lemma EmptyCycle(cfg: Config, delay: real, n: nat)
    requires n > 0
    ensures RunTrace(cfg, delay, Empties(n)).sleeps
      == [Min(delay, cfg.maxDelay)] + RunTrace(cfg, Min(delay, cfg.maxDelay) * cfg.backoff, Empties(n - 1)).sleeps
  {
    var none: DequeueResult := Ok(None);
    assert Empties(n)[0] == none;
    assert Empties(n)[1..] == Empties(n - 1);
    var r := Step(cfg, delay, none);
    assert r.Some? && r.value.1 == [Min(delay, cfg.maxDelay)];
    assert r.value.0 == Min(delay, cfg.maxDelay) * cfg.backoff;
  }

  /** The length of sleep `i + 1` of a run of empty cycles after a reset. */
  function BackoffSleep(cfg: Config, i: nat): real
  {
    Min(Grow(cfg.defaultDelay, cfg.backoff, i), cfg.maxDelay)
  }

  /** If the clamped delay is that of cycle `j`, the clamped scaled delay is that of cycle `j + 1`. */
  lemma NextClamped(cfg: Config, delay: real, j: nat)
    requires cfg.maxDelay >= 0.0 && cfg.backoff >= 1.0
    requires Min(delay, cfg.maxDelay) == BackoffSleep(cfg, j)
    ensures Min(Min(delay, cfg.maxDelay) * cfg.backoff, cfg.maxDelay) == BackoffSleep(cfg, j + 1)
  {
    ClampScale(Grow(cfg.defaultDelay, cfg.backoff, j), cfg.maxDelay, cfg.backoff);
  }

  /**
   * From a delay whose clamped value is that of cycle `j` after a reset,
   * `n` more empty cycles sleep as cycles `j`, `j + 1`, ... do.
   */
  lemma {:induction false} EmptyCyclesFrom(cfg: Config, delay: real, j: nat, n: nat)
    requires cfg.maxDelay >= 0.0 && cfg.backoff >= 1.0
    requires Min(delay, cfg.maxDelay) == BackoffSleep(cfg, j)
    ensures |RunTrace(cfg, delay, Empties(n)).sleeps| == n
    ensures forall k :: 0 <= k < n ==> RunTrace(cfg, delay, Empties(n)).sleeps[k] == BackoffSleep(cfg, j + k)
    decreases n
  {
    if n > 0 {
      var d := Min(delay, cfg.maxDelay) * cfg.backoff;
      EmptyCycle(cfg, delay, n);
      NextClamped(cfg, delay, j);
      EmptyCyclesFrom(cfg, d, j + 1, n - 1);
      var s := RunTrace(cfg, delay, Empties(n)).sleeps;
      var t := RunTrace(cfg, d, Empties(n - 1)).sleeps;
      assert s == [Min(delay, cfg.maxDelay)] + t;
      forall k | 1 <= k < n
        ensures s[k] == BackoffSleep(cfg, j + k)
      {
        assert s[k] == t[k - 1];
        assert j + 1 + (k - 1) == j + k;
      }
    }
  }

  /**
   * After a reset, sleep number `k + 1` of a run of empty cycles lasts
   * `min(default * factor^k, max)`, for a factor of at least 1 and a
   * non-negative maximum.
   */
  lemma EmptyCyclesAfterReset(cfg: Config, n: nat)
    requires cfg.maxDelay >= 0.0 && cfg.backoff >= 1.0
    ensures |RunTrace(cfg, cfg.defaultDelay, Empties(n)).sleeps| == n
    ensures forall k :: 0 <= k < n ==>
      RunTrace(cfg, cfg.defaultDelay, Empties(n)).sleeps[k] == Min(Grow(cfg.defaultDelay, cfg.backoff, k), cfg.maxDelay)
  {
    assert BackoffSleep(cfg, 0) == Min(cfg.defaultDelay, cfg.maxDelay);
    EmptyCyclesFrom(cfg, cfg.defaultDelay, 0, n);
  }

  /** `'/var/run/djutils-%s.pid'` unless a pidfile was given. */
  function PidFile(options: Options, queueName: string): (p: string)
    ensures options.pidfile != "" ==> p == options.pidfile
    ensures options.pidfile == "" ==> p == "/var/run/djutils-" + queueName + ".pid"
  {
    if options.pidfile != "" then options.pidfile else "/var/run/djutils-" + queueName + ".pid"
  }

  /** `'/var/log/djutils-%s.log'` unless a logfile was given. */
  function LogFile(options: Options, queueName: string): (p: string)
    ensures options.logfile != "" ==> p == options.logfile
    ensures options.logfile == "" ==> p == "/var/log/djutils-" + queueName + ".log"
  {
    if options.logfile != "" then options.logfile else "/var/log/djutils-" + queueName + ".log"
  }

  class QueueDaemon {
    const queueName: string
    const pidfile: string
    const logfile: string
    var defaultDelay: real
    var maxDelay: real
    var backoffFactor: real
    var delay: real
    /** Every `time.sleep` the daemon made, in order. */
    var sleeps: seq<real>
    /** Every message logged as processed, in order. */
    var processed: seq<string>

    function Cfg(): Config
      reads this
    {
      Config(defaultDelay, maxDelay, backoffFactor)
    }

    /** The part of `__init__` before `initialize_options`: the pid and log file names. */
    constructor (options: Options, queueName: string)
      ensures this.queueName == queueName
      ensures pidfile == PidFile(options, queueName) && logfile == LogFile(options, queueName)
      ensures sleeps == [] && processed == []
    {
      this.queueName := queueName;
      pidfile := PidFile(options, queueName);
      logfile := LogFile(options, queueName);
      sleeps := [];
      processed := [];
    }

    /** `initialize_options`: the numbers are stored, then a backoff below 1 raises; the delay starts at the default. */
    method InitializeOptions(options: Options) returns (r: Outcome<Raised>)
      modifies this
      ensures Cfg() == Config(options.delay, options.maxDelay, options.backoff)
      ensures options.backoff < 1.0 ==> r == Fail(BackoffConfigInvalid) && delay == old(delay)
      ensures options.backoff >= 1.0 ==> r == Pass && delay == options.delay
      ensures sleeps == old(sleeps) && processed == old(processed)
    {
      defaultDelay := options.delay;
      maxDelay := options.maxDelay;
      backoffFactor := options.backoff;
      if backoffFactor < 1.0 {
        return Fail(BackoffConfigInvalid);
      }
      delay := defaultDelay;
      r := Pass;
    }

    /**
     * `process_message` given what `dequeue` gave: an exception other than
     * QueueException is re-raised with nothing else changed; a message resets
     * the delay; otherwise the delay is clamped to the maximum, slept, and scaled.
     */
    method ProcessMessage(result: DequeueResult) returns (r: Outcome<Raised>)
      modifies this
      ensures Cfg() == old(Cfg())
      ensures Fatal(result) ==> r == Fail(result.error) && delay == old(delay) && sleeps == old(sleeps) && processed == old(processed)
      ensures !Fatal(result) ==> |old(sleeps)| <= |sleeps| && sleeps[..|old(sleeps)|] == old(sleeps)
      ensures !Fatal(result) ==> r == Pass && (delay, sleeps[|old(sleeps)|..]) == Step(Cfg(), old(delay), result).value
      ensures processed == old(processed) + (if Processed(result) then [result.value.value] else [])
    {
      if result.Err? && !result.error.QueueException? {
        return Fail(result.error);
      }
      r := Pass;
      ghost var step := Step(Cfg(), delay, result).value;
      if Processed(result) {
        processed := processed + [result.value.value];
        delay := defaultDelay;
        assert sleeps[|old(sleeps)|..] == [] == step.1;
      } else {
        if delay > maxDelay {
          delay := maxDelay;
        }
        assert delay == Min(old(delay), maxDelay);
        sleeps := sleeps + [delay];
        delay := delay * backoffFactor;
        assert sleeps[|old(sleeps)|..] == [Min(old(delay), maxDelay)] == step.1;
      }
      assert delay == step.0;
    }

    /** `run()`: cycles until an exception escapes (or the process is interrupted), as `RunTrace` says. */
    method Run(results: seq<DequeueResult>) returns (stop: Raised)
      modifies this
      ensures Cfg() == old(Cfg())
      ensures sleeps == old(sleeps) + RunTrace(Cfg(), old(delay), results).sleeps
      ensures delay == RunTrace(Cfg(), old(delay), results).delay
      ensures stop == RunTrace(Cfg(), old(delay), results).stop
    {
      ghost var cfg := Cfg();
      ghost var whole := RunTrace(cfg, delay, results);
      var i := 0;
      while i < |results|
        invariant 0 <= i <= |results| && Cfg() == cfg
        invariant old(sleeps) + whole.sleeps == sleeps + RunTrace(cfg, delay, results[i..]).sleeps
        invariant whole.delay == RunTrace(cfg, delay, results[i..]).delay
        invariant whole.stop == RunTrace(cfg, delay, results[i..]).stop
        decreases |results| - i
      {
        assert results[i..][0] == results[i] && results[i..][1..] == results[i + 1..];
        ghost var before := sleeps;
        ghost var entry := delay;
        var r := ProcessMessage(results[i]);
        if r.Fail? {
          return r.error;
        }
        RunTraceStep(cfg, entry, results[i..]);
        ghost var rest := RunTrace(cfg, delay, results[i + 1..]).sleeps;
        assert sleeps == before + sleeps[|before|..];
        assert before + (sleeps[|before|..] + rest) == sleeps + rest;
        i := i + 1;
      }
      stop := Interrupted;
    }
  }

  /** `QueueDaemon(options)`: names the files, then validates the options. */
  method NewDaemon(options: Options, queueName: string) returns (r: Result<QueueDaemon, Raised>)
    ensures options.backoff < 1.0 <==> r == Err(BackoffConfigInvalid)
    ensures r.Ok? ==> fresh(r.value)
    ensures r.Ok? ==> r.value.Cfg() == Config(options.delay, options.maxDelay, options.backoff) && r.value.delay == options.delay
    ensures r.Ok? ==> r.value.pidfile == PidFile(options, queueName) && r.value.logfile == LogFile(options, queueName)
    ensures r.Ok? ==> r.value.sleeps == []
  {
    var daemon := new QueueDaemon(options, queueName);
    var init := daemon.InitializeOptions(options);
    if init.Fail? {
      return Err(init.error);
    }
    r := Ok(daemon);
  }

  /**
   * With the registry as written, a message naming an unregistered class stops
   * the daemon (NameError is not caught); the evidently intended QueueException
   * would have counted as an empty cycle.
   */
  lemma UnknownClassStopsDaemon(cfg: Config, delay: real, reg: CommandRegistry.CommandRegistry, msg: string)
    requires ParseMessage(reg.registry, msg).Err? && ParseMessage(reg.registry, msg).error.UnknownClass?
    ensures Step(cfg, delay, Err(reg.GetCommandForMessageAsWritten(msg).error)).None?
    ensures Step(cfg, delay, Err(reg.GetCommandForMessage(msg).error)) == Some((Min(delay, cfg.maxDelay) * cfg.backoff, [Min(delay, cfg.maxDelay)]))
  {
    CommandRegistry.AsWrittenDiffersOnUnknownClass(reg, msg);
    var caught: DequeueResult := Err(reg.GetCommandForMessage(msg).error);
    assert !Fatal(caught) && !Processed(caught);
    var r := Step(cfg, delay, caught);
    assert r.Some? && r.value.1 == [Min(delay, cfg.maxDelay)];
    assert r.value.0 == Min(delay, cfg.maxDelay) * cfg.backoff;
  }
}
