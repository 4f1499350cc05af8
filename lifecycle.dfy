/**
 * main.go: the process lifecycle. Boot validates the integer settings, sleeps
 * the startup time, may crash on purpose, and arranges for the `ready` flag
 * to be set; setup derives the proxy list, the bearer secret, the route table
 * and the listen address from the environment; then the server listens until
 * a signal, optionally sleeps the shutdown time, and shuts down within a
 * bounded grace period.
 *
 * Time is a natural number of nanoseconds since the process started. The
 * background ready timer and the listener goroutine are not threads here:
 * the timer is a due time that `Elapse` fires, and the listener's result is a
 * parameter of `Listen`.
 */
module Lifecycle {
  import opened Wrappers
  import opened Strconv
  import opened GoStrings
  import opened Helper
  import opened Http
  import opened Router
  import opened Middleware
  import opened GoTime
  import Handlers
  import RouterFacts

  const StartupKey: string := "BUSY_STARTUP_TIME_MS"
  const ShutdownKey: string := "BUSY_SHUTDOWN_TIME_MS"
  const CrashKey: string := "BUSY_CRASH"
  const ReadyKey: string := "BUSY_READY_TIME_MS"
  const ProxiesKey: string := "BUSY_TRUSTED_PROXIES"
  const PlatformKey: string := "BUSY_TRUSTED_PLATFORM"
  const SecretKey: string := "BUSY_SECRET"
  const AddressKey: string := "BUSY_ADDRESS"

  const DefaultAddress: string := ":8080"

  /** The `10*time.Second` bound on shutdown, in nanoseconds. */
  const ShutdownGrace: nat := 10_000 * Millisecond

  /** Exit statuses: `log.Fatal` exits 1, an unrecovered panic exits 2, returning from main exits 0. */
  const ExitClean: int := 0
  const ExitFatal: int := 1
  const ExitPanic: int := 2

  // ------------------------------------------------------------ boot decisions

  /** `BUSY_CRASH` set to anything but "" or "0" makes boot panic. */
  predicate Crashes(env: Env)
  {
    Getenv(env, CrashKey) != "" && Getenv(env, CrashKey) != "0"
  }

  /**
   * Where the process stands: `Started` once the startup sleep is over and
   * the crash check passed, `Booted` once `ready` has been arranged.
   */
  datatype Phase = Created | Started | Booted | Configured | Serving | Draining | Exited(code: int)

  /**
   * What boot leaves behind: its phase, how long it slept before recording
   * `startupTime`, the validated shutdown time, and the ready flag or the due
   * time of the background timer that will set it.
   */
  datatype BootState = BootState(phase: Phase, slept: nat, shutdownTime: int, ready: bool, readyAt: Option<nat>)

  /** The boot sequence: the two timing flags, the startup sleep, the crash check, then the ready flag. */
  function BootResult(env: Env): (b: BootState)
    ensures b.phase == Booted || b.phase == Exited(ExitFatal) || b.phase == Exited(ExitPanic)
    ensures b.phase.Exited? ==> !b.ready && b.readyAt.None?
  {
    var startup := ValidateIntFlag(env, StartupKey);
    var shutdown := ValidateIntFlag(env, ShutdownKey);
    if startup.Failure? || shutdown.Failure? then
      BootState(Exited(ExitFatal), 0, 0, false, None)
    else
      var slept := if startup.value != 0 then SleepNanos(startup.value) else 0;
      if Crashes(env) then
        BootState(Exited(ExitPanic), slept, shutdown.value, false, None)
      else
        var wait := ValidateIntFlag(env, ReadyKey);
        if wait.Failure? then
          BootState(Exited(ExitFatal), slept, shutdown.value, false, None)
        else if wait.value != 0 then
          BootState(Booted, slept, shutdown.value, false, Some(slept + SleepNanos(wait.value)))
        else
          BootState(Booted, slept, shutdown.value, true, None)
  }

  /** Boot panics exactly when the timing flags are valid and `BUSY_CRASH` asks for it. */
  lemma CrashIff(env: Env)
    ensures BootResult(env).phase == Exited(ExitPanic) <==>
              ValidateIntFlag(env, StartupKey).Success? && ValidateIntFlag(env, ShutdownKey).Success?
              && Crashes(env)
  {
  }

  /**
   * The timing flags are validated before the startup sleep: an invalid one
   * is fatal at once, crash or not. Otherwise `startupTime` is taken after
   * the full startup sleep, whatever the crash check and the ready flag then
   * decide.
   */
  lemma TimingFlagsFirst(env: Env)
    ensures ValidateIntFlag(env, StartupKey).Failure? || ValidateIntFlag(env, ShutdownKey).Failure? ==>
              BootResult(env) == BootState(Exited(ExitFatal), 0, 0, false, None)
    ensures ValidateIntFlag(env, StartupKey).Success? && ValidateIntFlag(env, ShutdownKey).Success? ==>
              BootResult(env).slept == SleepNanos(ValidateIntFlag(env, StartupKey).value)
              && BootResult(env).shutdownTime == ValidateIntFlag(env, ShutdownKey).value
  {
  }

  /**
   * The ready flag is validated only after the crash check: with valid timing
   * flags a crash wins over any ready value, valid or not; and an invalid
   * timing flag wins over a crash.
   */
  lemma BootOrder(env: Env, ready: string, crash: string)
    requires ValidateIntFlag(env, StartupKey).Success? && ValidateIntFlag(env, ShutdownKey).Success?
    requires crash != "" && crash != "0"
    ensures BootResult(env[CrashKey := crash][ReadyKey := ready]).phase == Exited(ExitPanic)
    ensures BootResult(env[CrashKey := crash][StartupKey := "x"]).phase == Exited(ExitFatal)
  {
    var e1 := env[CrashKey := crash][ReadyKey := ready];
    assert Getenv(e1, StartupKey) == Getenv(env, StartupKey);
    assert Getenv(e1, ShutdownKey) == Getenv(env, ShutdownKey);
    assert Getenv(e1, CrashKey) == crash;
    var e2 := env[CrashKey := crash][StartupKey := "x"];
    assert Getenv(e2, StartupKey) == "x";
    assert !Decimal("x");
    ValidateIntFlagRejects(e2, StartupKey);
  }

  /**
   * A booted process is ready at once exactly when `BUSY_READY_TIME_MS` is 0;
   * otherwise it has a timer due the ready time after the startup sleep.
   */
  lemma ReadyArranged(env: Env)
    requires BootResult(env).phase == Booted
    ensures ValidateIntFlag(env, ReadyKey).Success? && !Crashes(env)
    ensures BootResult(env).ready <==> ValidateIntFlag(env, ReadyKey).value == 0
    ensures !BootResult(env).ready ==>
              BootResult(env).readyAt == Some(BootResult(env).slept + SleepNanos(ValidateIntFlag(env, ReadyKey).value))
  {
  }

  // ------------------------------------------------------------ setup decisions

  /**
   * The trusted proxies: none (`nil`) when `BUSY_TRUSTED_PROXIES` is empty,
   * and otherwise its comma-separated pieces, empty pieces included.
   */
  function TrustedProxies(env: Env): (r: Option<seq<string>>)
    ensures r.None? <==> Getenv(env, ProxiesKey) == ""
    ensures r.Some? ==> |r.value| >= 1 && Join(r.value, ',') == Getenv(env, ProxiesKey)
    ensures r.Some? ==> forall i :: 0 <= i < |r.value| ==> ',' !in r.value[i]
  {
    var value := Getenv(env, ProxiesKey);
    var parts := Split(value, ',');
    JoinSplit(value, ',');
    SplitPieces(value, ',');
    if |parts| == 1 && parts[0] == "" then None else Some(parts)
  }

  /** The listen address: `BUSY_ADDRESS`, or ":8080" when it is empty. */
  function Address(env: Env): (a: string)
    ensures a != ""
    ensures Getenv(env, AddressKey) != "" ==> a == Getenv(env, AddressKey)
    ensures Getenv(env, AddressKey) == "" ==> a == DefaultAddress
  {
    if Getenv(env, AddressKey) == "" then DefaultAddress else Getenv(env, AddressKey)
  }

  // ------------------------------------------------------------ requests that end the process

  /**
   * The exit status a request served with the given secret and table ends
   * the process with: `crash` exits 1 and `exit` exits 0, once the gate has
   * let the request through; every other request leaves it running.
   */
  function Ends(secret: string, routes: seq<Route>, req: Request): (r: Option<int>)
    ensures r.Some? ==> r.value == ExitFatal || r.value == ExitClean
  {
    var g := Guard(secret, Header(req, "Authorization"), Dispatch(routes, req.verb, req.path));
    if g.Passed? && g.result.Some? && g.result.value.handler == Crash then Some(ExitFatal)
    else if g.Passed? && g.result.Some? && g.result.value.handler == Exit then Some(ExitClean)
    else None
  }

  /** The status the first process-ending request among `reqs` exits with, if any. */
  function FirstEnd(secret: string, routes: seq<Route>, reqs: seq<Request>): (r: Option<int>)
    ensures r.Some? ==> r.value == ExitFatal || r.value == ExitClean
  {
    if reqs == [] then None
    else if Ends(secret, routes, reqs[0]).Some? then Ends(secret, routes, reqs[0])
    else FirstEnd(secret, routes, reqs[1..])
  }

  /**
   * FirstEnd picks the first request that ends the process: none ends it
   * exactly when FirstEnd is None, and otherwise FirstEnd is the status of
   * a request at some index i with none ending it before i.
   */
  lemma {:induction false} FirstEndIsFirst(secret: string, routes: seq<Route>, reqs: seq<Request>)
    ensures FirstEnd(secret, routes, reqs).None? <==> forall i :: 0 <= i < |reqs| ==> Ends(secret, routes, reqs[i]).None?
    ensures FirstEnd(secret, routes, reqs).Some? ==>
              exists i :: 0 <= i < |reqs| && FirstEnd(secret, routes, reqs) == Ends(secret, routes, reqs[i])
                          && forall j :: 0 <= j < i ==> Ends(secret, routes, reqs[j]).None?
    decreases |reqs|
  {
    if reqs != [] && Ends(secret, routes, reqs[0]).None? {
      var rest := reqs[1..];
      FirstEndIsFirst(secret, routes, rest);
      assert forall i :: 1 <= i < |reqs| ==> reqs[i] == rest[i - 1];
      if FirstEnd(secret, routes, rest).Some? {
        var k :| 0 <= k < |rest| && FirstEnd(secret, routes, rest) == Ends(secret, routes, rest[k])
                 && forall j :: 0 <= j < k ==> Ends(secret, routes, rest[j]).None?;
        assert forall j :: 0 <= j < k + 1 ==> Ends(secret, routes, reqs[j]).None?;
      }
    }
  }

  /**
   * With no secret, any Any-method request for "/crash" ends the process
   * with 1 and one for "/exit" with 0; with a secret, so does one carrying
   * the exact bearer header.
   */
  lemma EndingRequests(req: Request, secret: string)
    requires req.verb in AnyMethods
    requires secret == "" || Authorize(Header(req, "Authorization"), secret) == Forward
    ensures req.path == "/crash" ==> Ends(secret, Table(), req) == Some(ExitFatal)
    ensures req.path == "/exit" ==> Ends(secret, Table(), req) == Some(ExitClean)
  {
    if req.path == "/crash" {
      RouterFacts.CrashRoute(req.verb);
    } else if req.path == "/exit" {
      RouterFacts.ExitRoute(req.verb);
    }
  }

  // ------------------------------------------------------------ the process

  class Server {
    /** The environment the process was started with. */
    const env: Env

    var phase: Phase
    /** The `ready` flag the readiness handler reports; it is only ever stored true. */
    var ready: bool
    /** Nanoseconds since the process started. */
    var clock: nat
    /** `startupTime`: when the startup sleep ended. */
    var startupTime: nat
    /** When the background ready timer fires, if boot started one. */
    var readyAt: Option<nat>
    /** The validated `BUSY_SHUTDOWN_TIME_MS`. */
    var shutdownTime: int
    var proxies: Option<seq<string>>
    var platform: string
    /** The bearer secret; the auth gate is installed only when it is non-empty. */
    var secret: string
    var routes: seq<Route>
    var address: string

    /** Running past boot, with the ready flag arranged. */
    predicate Up()
      reads this
    {
      phase.Booted? || phase.Configured? || phase.Serving? || phase.Draining?
    }

    predicate Valid()
      reads this
    {
      (phase.Created? ==> !ready && readyAt.None? && clock == 0 && startupTime == 0 && shutdownTime == 0)
      && (phase.Started? ==> !ready && readyAt.None?)
      && startupTime <= clock
      // never ready before the timer is due
      && (ready ==> readyAt.None? || readyAt.value <= clock)
      // without a timer, boot set the flag itself
      && (Up() && readyAt.None? ==> ready)
      && (phase.Configured? || phase.Serving? || phase.Draining? ==> address != "")
    }

    constructor (env: Env)
      ensures Valid()
      ensures this.env == env && phase == Created && !ready
    {
      this.env := env;
      phase := Created;
      ready := false;
      clock := 0;
      startupTime := 0;
      readyAt := None;
      shutdownTime := 0;
      proxies := None;
      platform := "";
      secret := "";
      routes := [];
      address := "";
    }

    /**
     * Time passes while the process runs; the ready timer fires once it is
     * due (the background task of main.go stores true).
     */
    method Elapse(d: nat)
      requires Valid() && !phase.Created?
      modifies this
      ensures Valid()
      ensures clock == old(clock) + d
      ensures ready == (old(ready) || (!phase.Exited? && readyAt.Some? && readyAt.value <= clock))
      ensures phase == old(phase) && readyAt == old(readyAt) && startupTime == old(startupTime)
      ensures shutdownTime == old(shutdownTime) && proxies == old(proxies) && platform == old(platform)
      ensures secret == old(secret) && routes == old(routes) && address == old(address)
    {
      clock := clock + d;
      if !phase.Exited? && readyAt.Some? && readyAt.value <= clock {
        ready := true;
      }
    }

    /**
     * main.go up to the crash check: both timing flags are validated before
     * the startup sleep, and `startupTime` is taken right after it.
     */
    method Start()
      requires Valid() && phase == Created
      modifies this
      ensures Valid()
      ensures ValidateIntFlag(env, StartupKey).Failure? || ValidateIntFlag(env, ShutdownKey).Failure? ==>
                phase == Exited(ExitFatal) && clock == 0 && startupTime == 0 && shutdownTime == 0
      ensures ValidateIntFlag(env, StartupKey).Success? && ValidateIntFlag(env, ShutdownKey).Success? ==>
                phase == (if Crashes(env) then Exited(ExitPanic) else Started)
                && shutdownTime == ValidateIntFlag(env, ShutdownKey).value
                && startupTime == clock
                && clock == if ValidateIntFlag(env, StartupKey).value != 0
                            then SleepNanos(ValidateIntFlag(env, StartupKey).value) else 0
      ensures !ready && readyAt == None
      ensures proxies == old(proxies) && platform == old(platform) && secret == old(secret)
      ensures routes == old(routes) && address == old(address)
    {
      var startup := ValidateIntFlag(env, StartupKey);
      if startup.Failure? {
        phase := Exited(ExitFatal);
        return;
      }
      var shutdown := ValidateIntFlag(env, ShutdownKey);
      if shutdown.Failure? {
        phase := Exited(ExitFatal);
        return;
      }
      var slept := 0;
      if startup.value != 0 {
        slept := SleepNanos(startup.value);
      }
      shutdownTime, clock, startupTime := shutdown.value, slept, slept;
      if Crashes(env) {
        phase := Exited(ExitPanic);
        return;
      }
      phase := Started;
    }

    /**
     * main.go after the crash check: the ready flag is validated, then either
     * stored at once or left to a background timer.
     */
    method ArmReady()
      requires Valid() && phase == Started
      modifies this
      ensures Valid()
      ensures ValidateIntFlag(env, ReadyKey).Failure? ==> phase == Exited(ExitFatal) && !ready && readyAt == None
      ensures ValidateIntFlag(env, ReadyKey).Success? ==>
                var wait := ValidateIntFlag(env, ReadyKey).value;
                phase == Booted
                && (wait == 0 ==> ready && readyAt == None)
                && (wait != 0 ==> !ready && readyAt == Some(clock + SleepNanos(wait)))
      ensures clock == old(clock) && startupTime == old(startupTime) && shutdownTime == old(shutdownTime)
      ensures proxies == old(proxies) && platform == old(platform) && secret == old(secret)
      ensures routes == old(routes) && address == old(address)
    {
      var wait := ValidateIntFlag(env, ReadyKey);
      if wait.Failure? {
        phase := Exited(ExitFatal);
        return;
      }
      if wait.value != 0 {
        readyAt := Some(clock + SleepNanos(wait.value));
      } else {
        ready := true;
      }
      phase := Booted;
    }

    /** The whole boot sequence, as `BootResult` describes it. */
    method Boot()
      requires Valid() && phase == Created
      modifies this
      ensures Valid()
      ensures phase == BootResult(env).phase && ready == BootResult(env).ready
      ensures readyAt == BootResult(env).readyAt && shutdownTime == BootResult(env).shutdownTime
      ensures startupTime == BootResult(env).slept && clock == startupTime
      ensures proxies == old(proxies) && platform == old(platform) && secret == old(secret)
      ensures routes == old(routes) && address == old(address)
    {
      Start();
      if phase == Started {
        ArmReady();
      }
    }

    /**
     * Engine setup: trusted proxies (a rejected list is fatal), trusted
     * platform, the auth gate, the "/specify/:instance" routes and then the
     * "/" routes, and the listen address. `accepts` is gin's validation of a
     * proxy list.
     */
    method Setup(accepts: seq<string> -> bool)
      requires Valid() && phase == Booted
      modifies this
      ensures Valid()
      ensures proxies == TrustedProxies(env)
      ensures phase == if proxies.Some? && !accepts(proxies.value) then Exited(ExitFatal) else Configured
      ensures phase == Configured ==>
                platform == Getenv(env, PlatformKey) && secret == Getenv(env, SecretKey)
                && routes == Table() && address == Address(env)
      ensures phase.Exited? ==>
                platform == old(platform) && secret == old(secret) && routes == old(routes) && address == old(address)
      ensures ready == old(ready) && clock == old(clock) && readyAt == old(readyAt)
      ensures startupTime == old(startupTime) && shutdownTime == old(shutdownTime)
    {
      var trusted := TrustedProxies(env);
      proxies := trusted;
      if trusted.Some? && !accepts(trusted.value) {
        phase := Exited(ExitFatal);
        return;
      }
      var table := Build();
      var listenOn := Address(env);
      platform, secret, routes, address := Getenv(env, PlatformKey), Getenv(env, SecretKey), table, listenOn;
      phase := Configured;
    }

    /**
     * The listener starts without waiting for readiness. It fails fatally
     * unless it could bind (its later `ErrServerClosed` on shutdown is not an
     * error).
     */
    method Listen(bound: bool)
      requires Valid() && phase == Configured
      modifies this
      ensures Valid()
      ensures phase == if bound then Serving else Exited(ExitFatal)
      ensures ready == old(ready) && clock == old(clock) && readyAt == old(readyAt)
      ensures startupTime == old(startupTime) && shutdownTime == old(shutdownTime) && proxies == old(proxies)
      ensures platform == old(platform) && secret == old(secret) && routes == old(routes) && address == old(address)
    {
      phase := if bound then Serving else Exited(ExitFatal);
    }

    /** What a request meets: the auth gate, when installed, in front of dispatch (404s included). */
    function Serve(req: Request): (g: Gate<Option<Match>>)
      reads this
      ensures g.Passed? <==> secret == "" || Authorize(Header(req, "Authorization"), secret) == Forward
      ensures g.Passed? ==> g.result == Dispatch(routes, req.verb, req.path)
      ensures g.Aborted? ==> g.status == StatusUnauthorized || g.status == StatusNotAcceptable
    {
      Guard(secret, Header(req, "Authorization"), Dispatch(routes, req.verb, req.path))
    }

    /**
     * The readiness handler while serving: "ok" when boot had no ready delay,
     * "not ready" until the timer is due, and 200 exactly when `ready` holds.
     */
    method ProbeReady() returns (o: Outcome)
      requires Valid() && phase == Serving
      ensures o.Respond?
      ensures readyAt.None? ==> o.reply == Reply(Handlers.StatusOK, [Text("ok")])
      ensures readyAt.Some? && clock < readyAt.value ==>
                o.reply == Reply(Handlers.StatusBadRequest, [Text("not ready")])
      ensures o.reply.status == Handlers.StatusOK <==> ready
    {
      o := Handlers.IsReady(ready);
    }

    /**
     * One request while serving. When it passes the gate and reaches `crash`
     * or `exit`, the handler's `os.Exit` ends the process with the status it
     * passes; any other request leaves the process state as it was.
     */
    method Deliver(req: Request)
      requires Valid() && phase == Serving
      modifies this
      ensures Valid()
      ensures phase == if Ends(secret, routes, req).Some? then Exited(Ends(secret, routes, req).value) else Serving
      ensures ready == old(ready) && clock == old(clock) && readyAt == old(readyAt)
      ensures startupTime == old(startupTime) && shutdownTime == old(shutdownTime) && proxies == old(proxies)
      ensures platform == old(platform) && secret == old(secret) && routes == old(routes) && address == old(address)
    {
      var g := Serve(req);
      if g.Passed? && g.result.Some? {
        if g.result.value.handler == Crash {
          var o := Handlers.Crash();
          phase := Exited(o.code);
        } else if g.result.value.handler == Exit {
          var o := Handlers.Exit();
          phase := Exited(o.code);
        }
      }
    }

    /**
     * The requests served, in order, until one ends the process: the phase
     * is then the status of the first that does, and nothing else changes.
     */
    method ServeAll(requests: seq<Request>)
      requires Valid() && phase == Serving
      modifies this
      ensures Valid()
      ensures phase == if FirstEnd(secret, routes, requests).Some? then Exited(FirstEnd(secret, routes, requests).value) else Serving
      ensures ready == old(ready) && clock == old(clock) && readyAt == old(readyAt)
      ensures startupTime == old(startupTime) && shutdownTime == old(shutdownTime) && proxies == old(proxies)
      ensures platform == old(platform) && secret == old(secret) && routes == old(routes) && address == old(address)
    {
      var i := 0;
      while i < |requests| && phase == Serving
        invariant 0 <= i <= |requests|
        invariant Valid()
        invariant ready == old(ready) && clock == old(clock) && readyAt == old(readyAt)
        invariant startupTime == old(startupTime) && shutdownTime == old(shutdownTime) && proxies == old(proxies)
        invariant platform == old(platform) && secret == old(secret) && routes == old(routes) && address == old(address)
        invariant phase == Serving ==> FirstEnd(secret, routes, requests) == FirstEnd(secret, routes, requests[i..])
        invariant phase != Serving ==> FirstEnd(secret, routes, requests).Some? && phase == Exited(FirstEnd(secret, routes, requests).value)
      {
        assert requests[i..][0] == requests[i] && requests[i..][1..] == requests[i + 1..];
        Deliver(requests[i]);
        i := i + 1;
      }
    }

    /**
     * SIGINT or SIGTERM: sleep the shutdown time if it is non-zero, then
     * start the shutdown. The source keeps serving during that sleep; here
     * every request is served before the signal.
     */
    method Signal()
      requires Valid() && phase == Serving
      modifies this
      ensures Valid()
      ensures phase == Draining
      ensures clock == old(clock) + SleepNanos(shutdownTime)
      ensures ready == (old(ready) || (shutdownTime != 0 && readyAt.Some? && readyAt.value <= clock))
      ensures readyAt == old(readyAt) && startupTime == old(startupTime) && shutdownTime == old(shutdownTime)
      ensures proxies == old(proxies) && platform == old(platform) && secret == old(secret)
      ensures routes == old(routes) && address == old(address)
    {
      if shutdownTime != 0 {
        Elapse(SleepNanos(shutdownTime));
      }
      phase := Draining;
    }

    /**
     * `srv.Shutdown` with a ten-second deadline: connections that finish
     * within `busyFor` nanoseconds before the deadline give a clean exit; a
     * deadline that expires first is a fatal error.
     */
    method Shutdown(busyFor: nat)
      requires Valid() && phase == Draining
      modifies this
      ensures Valid()
      ensures busyFor < ShutdownGrace ==> phase == Exited(ExitClean) && clock == old(clock) + busyFor
      ensures busyFor >= ShutdownGrace ==> phase == Exited(ExitFatal) && clock == old(clock) + ShutdownGrace
      ensures ready == (old(ready) || (readyAt.Some? && readyAt.value <= clock))
      ensures readyAt == old(readyAt) && startupTime == old(startupTime) && shutdownTime == old(shutdownTime)
      ensures proxies == old(proxies) && platform == old(platform) && secret == old(secret)
      ensures routes == old(routes) && address == old(address)
    {
      if busyFor < ShutdownGrace {
        Elapse(busyFor);
        phase := Exited(ExitClean);
      } else {
        Elapse(ShutdownGrace);
        phase := Exited(ExitFatal);
      }
    }
  }

  /** Boot, the proxy list and the bind all succeed, so the process gets to serve. */
  predicate Serves(env: Env, accepts: seq<string> -> bool, bound: bool)
  {
    BootResult(env).phase == Booted && (TrustedProxies(env).None? || accepts(TrustedProxies(env).value)) && bound
  }

  /**
   * A whole run of the process, given the environment, gin's proxy-list
   * validation, whether the listener binds, the requests served in order
   * (time between them is not modelled), how long it serves before the
   * signal and how long connections take to drain: the exit status. A
   * `crash` or `exit` request that gets through ends the run with its
   * handler's status; otherwise the run ends at the signal.
   */
  method Run(env: Env, accepts: seq<string> -> bool, bound: bool, requests: seq<Request>, serveFor: nat, busyFor: nat)
    returns (code: int)
    ensures code == ExitClean || code == ExitFatal || code == ExitPanic
    ensures code == ExitPanic <==> BootResult(env).phase == Exited(ExitPanic)
    ensures Serves(env, accepts, bound) && FirstEnd(Getenv(env, SecretKey), Table(), requests).Some? ==>
              code == FirstEnd(Getenv(env, SecretKey), Table(), requests).value
    ensures code == ExitClean <==>
              Serves(env, accepts, bound)
              && (FirstEnd(Getenv(env, SecretKey), Table(), requests) == Some(ExitClean)
                  || (FirstEnd(Getenv(env, SecretKey), Table(), requests).None? && busyFor < ShutdownGrace))
  {
    var s := new Server(env);
    s.Boot();
    if s.phase != Booted {
      return s.phase.code;
    }
    s.Setup(accepts);
    if s.phase != Configured {
      return ExitFatal;
    }
    s.Listen(bound);
    if s.phase != Serving {
      return ExitFatal;
    }
    s.ServeAll(requests);
    if s.phase != Serving {
      return s.phase.code;
    }
    s.Elapse(serveFor);
    s.Signal();
    s.Shutdown(busyFor);
    code := s.phase.code;
  }
}
