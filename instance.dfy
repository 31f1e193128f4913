/**
 * The unix `Instance`: it builds a container through the isolated executor,
 * starts it, forwards signals and deletion to it, and publishes the exit
 * status exactly once through a `WaitableCell`.
 *
 * The container runtime (libcontainer), the pidfd and the isolated executor
 * are collaborators: their answers are parameters. The container is reduced
 * to its pid and the list of calls forwarded to it. The watcher thread that
 * `start` spawns is a `Watcher` object whose `Run` is called as a separate
 * step; the mutex around the container is not modelled, as every method here
 * runs alone.
 */
module UnixInstance {
  import opened Base
  import opened Sync

  const DEFAULT_CONTAINER_ROOT_DIR: string := "/run/containerd"

  /** The status published when nothing better is known: the guard's default and the watcher's fallback. */
  const FALLBACK_EXIT: u32 := 137

  /** The context `start` attaches when the container has no pid. */
  const NO_PID: string := "failed to get pid"

  /** The numbers `Signal::try_from` accepts: the standard Linux signals. */
  type Signal = n: int | 1 <= n <= 31 witness 9

  predicate IsSignal(n: int)
  {
    1 <= n <= 31
  }

  /** `Signal::try_from(n)`; the text of the library's error is not part of this model. */
  function SignalTryFrom(n: i32): (r: Result<Signal, Error>)
    ensures r.Ok? <==> IsSignal(n)
    ensures r.Ok? ==> r.value == n
  {
    if IsSignal(n) then Ok(n) else Err(Error("invalid signal"))
  }

  /** The error type of the sandbox `Instance` trait, as far as this file produces it. */
  datatype SandboxError =
    | Others(message: string)          // isolated-build failures, by their text
    | InvalidArgument(message: string) // a signal number that is not a signal
    | Propagated(cause: Error)         // any other error, passed on by `?`

  /** `nix::sys::wait::WaitStatus`. */
  datatype WaitStatus =
    | Exited(pid: i32, status: i32)
    | Signaled(pid: i32, signal: Signal, coreDumped: bool)
    | Stopped(pid: i32, signal: Signal)
    | PtraceEvent(pid: i32, signal: Signal, event: i32)
    | PtraceSyscall(pid: i32)
    | Continued(pid: i32)
    | StillAlive

  /** Lines 119-130: the code the watcher publishes for the result of waiting on the pidfd. */
  function WatcherExitCode(wait: Result<WaitStatus, Error>): u32
  {
    var status: i32 :=
      match wait
      case Ok(Exited(_, s)) => s
      case Ok(Signaled(_, sig, _)) => 128 + sig
      case _ => FALLBACK_EXIT;
    AsU32(status)
  }

  /**
   * The watcher publishes the exit status for a normal exit, 128 plus the
   * signal for a signal death, and 137 for any other status or a failed wait;
   * nothing else.
   */
  lemma WatcherExitCodeCases(wait: Result<WaitStatus, Error>)
    ensures wait.Ok? && wait.value.Exited? ==> WatcherExitCode(wait) == AsU32(wait.value.status)
    ensures wait.Ok? && wait.value.Exited? && 0 <= wait.value.status ==> WatcherExitCode(wait) == wait.value.status
    ensures wait.Ok? && wait.value.Signaled? ==> WatcherExitCode(wait) == 128 + wait.value.signal
    ensures !(wait.Ok? && (wait.value.Exited? || wait.value.Signaled?)) ==> WatcherExitCode(wait) == FALLBACK_EXIT
  {
    if wait.Ok? && wait.value.Exited? {
      CastsRoundTrip(wait.value.status, 0);
    }
  }

  /**
   * A signal death always publishes a code in 129..159 from which the signal
   * is recovered, and the fallback 137 is exactly what a SIGKILL death publishes.
   */
  lemma SignalCodesDecode(pid: i32, sig: Signal, core: bool, e: Error)
    ensures 129 <= WatcherExitCode(Ok(Signaled(pid, sig, core))) <= 159
    ensures WatcherExitCode(Ok(Signaled(pid, sig, core))) - 128 == sig
    ensures WatcherExitCode(Err(e)) == WatcherExitCode(Ok(Signaled(pid, 9, core)))
  {
  }

  // ---------------------------------------------------------------------------
  // The container and construction (`Instance::new`, lines 41-95)

  datatype ContainerCall =
    | StartCall                          // `container.start()`
    | KillCall(signal: Signal, all: bool)  // `container.kill(signal, all)`
    | DeleteCall(force: bool)            // `container.delete(force)`

  /** A built container: its init pid, if it has one, and every call made on it. */
  datatype Container = Container(pid: Option<i32>, calls: seq<ContainerCall>)

  datatype InstanceConfig = InstanceConfig(containerdAddress: string, namespace: string, bundle: string)

  /** A connected containerd client. */
  datatype Client = Client(address: string, namespace: string)

  datatype WasmLayer = WasmLayer(digest: string)
  datatype Platform = DefaultPlatform | Platform(os: string, architecture: string)

  /** What `load_modules` yields: the wasm layers and the platform of the image. */
  datatype Modules = Modules(layers: seq<WasmLayer>, platform: Platform)

  /** What the isolated closure hands the container builder. */
  datatype BuildSpec = BuildSpec(
    id: string, rootPath: string, bundle: string, modules: Modules,
    asSibling: bool, withSystemd: bool)

  /** `Path::new(base).join(name)`: an absolute `name` replaces the base. */
  function JoinPath(base: string, name: string): string
  {
    if |name| > 0 && name[0] == '/' then name else base + "/" + name
  }

  /** Line 57: the base of the root directory, `/run/containerd` joined with the engine name. */
  function RootDirBase(engineName: string): string
  {
    JoinPath(DEFAULT_CONTAINER_ROOT_DIR, engineName)
  }

  /**
   * Lines 53-83: the closure run inside the isolated executor. The root
   * directory is resolved from the bundle and namespace against the base,
   * then the container is built as a sibling without systemd.
   */
  function BuildInIsolation(id: string, cfg: InstanceConfig, engineName: string, modules: Modules,
                            determineRootdir: (string, string, string) -> Result<string, Error>,
                            build: BuildSpec -> Result<Container, Error>): Result<Container, Error>
  {
    match determineRootdir(cfg.bundle, cfg.namespace, RootDirBase(engineName))
    case Err(e) => Err(e)
    case Ok(rootdir) => build(BuildSpec(id, rootdir, cfg.bundle, modules, true, false))
  }

  /** Lines 43-49: the loaded modules, or no layers and the default platform when loading failed. */
  function ModulesOrEmpty(loaded: Result<Modules, Error>): Modules
  {
    match loaded
    case Ok(m) => m
    case Err(_) => Modules([], DefaultPlatform)
  }

  /**
   * Lines 41-95 without the allocation. `connect` and `loadModules` are the
   * containerd client; `isolationFault` is a failure of the isolated executor
   * itself, which then never runs the closure.
   */
  function Construct(id: string, cfg: InstanceConfig, engineName: string,
                     connect: (string, string) -> Result<Client, Error>,
                     loadModules: (Client, string) -> Result<Modules, Error>,
                     isolationFault: Option<Error>,
                     determineRootdir: (string, string, string) -> Result<string, Error>,
                     build: BuildSpec -> Result<Container, Error>): Result<Container, SandboxError>
  {
    match connect(cfg.containerdAddress, cfg.namespace)
    case Err(e) => Err(Propagated(e))
    case Ok(client) =>
      var modules := ModulesOrEmpty(loadModules(client, id));
      var isolated := match isolationFault
                      case Some(fault) => Err(fault)
                      case None => BuildInIsolation(id, cfg, engineName, modules, determineRootdir, build);
      match isolated
      case Err(e) => Err(Others(e.message))
      case Ok(c) => Ok(c)
  }

  /**
   * A failure to load the modules never fails construction: it behaves
   * exactly as if the image had no wasm layers and the default platform.
   */
  lemma ModuleLoadFailureDegrades(id: string, cfg: InstanceConfig, engineName: string,
                                  connect: (string, string) -> Result<Client, Error>,
                                  failing: (Client, string) -> Result<Modules, Error>,
                                  isolationFault: Option<Error>,
                                  determineRootdir: (string, string, string) -> Result<string, Error>,
                                  build: BuildSpec -> Result<Container, Error>)
    requires forall c: Client :: failing(c, id).Err?
    ensures Construct(id, cfg, engineName, connect, failing, isolationFault, determineRootdir, build)
         == Construct(id, cfg, engineName, connect, (c, i) => Ok(Modules([], DefaultPlatform)),
                      isolationFault, determineRootdir, build)
  {
  }

  /**
   * Construction fails exactly when connecting to containerd fails (that
   * error is passed on as it is), or when the isolated build fails at any
   * step (reported as `Others` with the error's text). Otherwise the
   * container is the one built from the root directory resolved against
   * `/run/containerd/<engine>`.
   */
  lemma ConstructOutcomes(id: string, cfg: InstanceConfig, engineName: string,
                          connect: (string, string) -> Result<Client, Error>,
                          loadModules: (Client, string) -> Result<Modules, Error>,
                          isolationFault: Option<Error>,
                          determineRootdir: (string, string, string) -> Result<string, Error>,
                          build: BuildSpec -> Result<Container, Error>)
    requires |engineName| == 0 || engineName[0] != '/'
    ensures var r := Construct(id, cfg, engineName, connect, loadModules, isolationFault, determineRootdir, build);
            var conn := connect(cfg.containerdAddress, cfg.namespace);
            var rootdir := determineRootdir(cfg.bundle, cfg.namespace, "/run/containerd/" + engineName);
            && (conn.Err? ==> r == Err(Propagated(conn.error)))
            && (conn.Ok? && isolationFault.Some? ==> r == Err(Others(isolationFault.value.message)))
            && (conn.Ok? && isolationFault.None? && rootdir.Err? ==> r == Err(Others(rootdir.error.message)))
            && (conn.Ok? && isolationFault.None? && rootdir.Ok? ==>
                  var built := build(BuildSpec(id, rootdir.value, cfg.bundle,
                                               ModulesOrEmpty(loadModules(conn.value, id)), true, false));
                  r == (if built.Ok? then Ok(built.value) else Err(Others(built.error.message))))
  {
    assert RootDirBase(engineName) == "/run/containerd/" + engineName;
  }

  // ---------------------------------------------------------------------------
  // The watcher thread (lines 115-132)

  /** The handle `PidFd::new(pid)` opens on the container's init process. */
  datatype PidFd = PidFd(pid: i32)

  /**
   * The thread `start` spawns: it owns the exit guard and waits on the pidfd.
   * `Run` is the thread's whole body; `Unwind` is the thread ending before it
   * publishes, when only the guard's drop is left to run.
   */
  class Watcher {
    const guard: ExitGuard
    const pidfd: PidFd

    constructor (guard: ExitGuard, pidfd: PidFd)
      ensures this.guard == guard && this.pidfd == pidfd
    {
      this.guard := guard;
      this.pidfd := pidfd;
    }

    /** Waits, maps the status, `set`s the cell (result ignored), then drops the guard. */
    method Run(wait: Result<WaitStatus, Error>, now: Time)
      requires guard.armed
      modifies guard, guard.cell
      ensures !guard.armed
      ensures guard.cell.value == Publish(old(guard.cell.value), ExitStatus(WatcherExitCode(wait), now))
    {
      var status := WatcherExitCode(wait);
      var _ := guard.cell.Set(ExitStatus(status, now));
      guard.Drop(now);
    }

    /** The thread ends without reaching `set`: the guard's drop publishes the fallback. */
    method Unwind(now: Time)
      requires guard.armed
      modifies guard, guard.cell
      ensures !guard.armed
      ensures guard.cell.value == Publish(old(guard.cell.value), ExitStatus(guard.code, now))
    {
      guard.Drop(now);
    }
  }

  // ---------------------------------------------------------------------------
  // The instance

  class Instance {
    const id: string
    const exitCode: WaitableCell
    var container: Container

    constructor (id: string, container: Container)
      ensures this.id == id && this.container == container
      ensures fresh(exitCode) && exitCode.value == None
    {
      this.id := id;
      this.container := container;
      exitCode := new WaitableCell();
    }

    /** `Instance::new`: construct the container, then an instance with an empty exit cell. */
    static method New(id: string, cfg: InstanceConfig, engineName: string,
                      connect: (string, string) -> Result<Client, Error>,
                      loadModules: (Client, string) -> Result<Modules, Error>,
                      isolationFault: Option<Error>,
                      determineRootdir: (string, string, string) -> Result<string, Error>,
                      build: BuildSpec -> Result<Container, Error>)
      returns (r: Result<Instance, SandboxError>)
      ensures var built := Construct(id, cfg, engineName, connect, loadModules, isolationFault, determineRootdir, build);
              && (built.Err? ==> r == Err(built.error))
              && (built.Ok? ==> r.Ok? && fresh(r.value) && fresh(r.value.exitCode)
                                && r.value.id == id && r.value.container == built.value
                                && r.value.exitCode.value == None)
    {
      var built := Construct(id, cfg, engineName, connect, loadModules, isolationFault, determineRootdir, build);
      match built
      case Err(e) =>
        r := Err(e);
      case Ok(c) =>
        var inst := new Instance(id, c);
        r := Ok(inst);
    }

    /**
     * Lines 101-135. The guard with default `(137, now)` is armed first; a
     * missing pid, a failed pidfd or a failed `container.start()` returns the
     * error and drops the guard on the way out. On success the guard moves to
     * the spawned watcher and the pid is returned.
     */
    method Start(openPidFd: i32 -> Result<PidFd, Error>, started: Result<(), Error>, now: Time)
      returns (r: Result<u32, SandboxError>, watcher: Option<Watcher>)
      modifies this, exitCode
      ensures container.pid == old(container.pid)
      ensures old(container.pid).None? ==>
                r == Err(Propagated(Error(NO_PID))) && container == old(container)
      ensures old(container.pid).Some? && openPidFd(old(container.pid).value).Err? ==>
                r == Err(Propagated(openPidFd(old(container.pid).value).error)) && container == old(container)
      ensures old(container.pid).Some? && openPidFd(old(container.pid).value).Ok? ==>
                container.calls == old(container.calls) + [StartCall] &&
                r == (if started.Err? then Err(Propagated(started.error)) else Ok(AsU32(old(container.pid).value)))
      ensures r.Err? ==> watcher.None?
      ensures r.Err? ==> exitCode.value == Publish(old(exitCode.value), ExitStatus(FALLBACK_EXIT, now))
      ensures r.Ok? ==> exitCode.value == old(exitCode.value)
      ensures r.Ok? ==> watcher.Some? && fresh(watcher.value) && fresh(watcher.value.guard)
      ensures r.Ok? ==> watcher.Some? && watcher.value.guard.cell == exitCode && watcher.value.guard.armed
      ensures r.Ok? ==> watcher.Some? && watcher.value.guard.code == FALLBACK_EXIT
      ensures r.Ok? ==> old(container.pid).Some? && watcher.Some? &&
                        watcher.value.pidfd == openPidFd(old(container.pid).value).value
    {
      var guard := exitCode.SetGuardWith(FALLBACK_EXIT);
      if container.pid.None? {
        guard.Drop(now);
        return Err(Propagated(Error(NO_PID))), None;
      }
      var pid := container.pid.value;
      var pidfd := openPidFd(pid);
      if pidfd.Err? {
        guard.Drop(now);
        return Err(Propagated(pidfd.error)), None;
      }
      container := container.(calls := container.calls + [StartCall]);
      if started.Err? {
        guard.Drop(now);
        return Err(Propagated(started.error)), None;
      }
      var w := new Watcher(guard, pidfd.value);
      return Ok(AsU32(pid)), Some(w);
    }

    /**
     * Lines 139-151. The signal number is checked before the container is
     * touched; a valid one is forwarded to every process of the container and
     * the container's answer is passed on.
     */
    method Kill(signal: u32, killed: Result<(), Error>) returns (r: Result<(), SandboxError>)
      modifies this
      ensures !IsSignal(AsI32(signal)) ==>
                r.Err? && r.error.InvalidArgument? && container == old(container)
      ensures IsSignal(AsI32(signal)) ==>
                container == old(container).(calls := old(container.calls) + [KillCall(AsI32(signal), true)]) &&
                r == (if killed.Err? then Err(Propagated(killed.error)) else Ok(()))
    {
      var sig := SignalTryFrom(AsI32(signal));
      if sig.Err? {
        return Err(InvalidArgument("invalid signal number: " + sig.error.message));
      }
      container := container.(calls := container.calls + [KillCall(sig.value, true)]);
      if killed.Err? {
        return Err(Propagated(killed.error));
      }
      return Ok(());
    }

    /** Lines 156-163: a forced delete is forwarded and its error passed on. */
    method Delete(deleted: Result<(), Error>) returns (r: Result<(), SandboxError>)
      modifies this
      ensures container == old(container).(calls := old(container.calls) + [DeleteCall(true)])
      ensures r == (if deleted.Err? then Err(Propagated(deleted.error)) else Ok(()))
    {
      container := container.(calls := container.calls + [DeleteCall(true)]);
      if deleted.Err? {
        return Err(Propagated(deleted.error));
      }
      return Ok(());
    }

    /** Lines 169-171: nothing while the cell is empty, a copy of the published status once it is set. */
    method WaitTimeout() returns (r: Option<ExitStatus>)
      ensures r.None? <==> exitCode.value.None?
      ensures r.Some? ==> r == exitCode.value
    {
      r := exitCode.WaitTimeout();
    }
  }

  /**
   * A fresh instance that is started and then waited on always yields a
   * status: the watcher's mapped code when `start` succeeded, the guard's
   * `(137, now)` when it failed.
   */
  method StartThenWait(inst: Instance, openPidFd: i32 -> Result<PidFd, Error>, started: Result<(), Error>,
                       wait: Result<WaitStatus, Error>, startedAt: Time, exitedAt: Time)
    returns (r: Result<u32, SandboxError>, observed: Option<ExitStatus>)
    requires inst.exitCode.value == None
    modifies inst, inst.exitCode
    ensures r.Err? ==> observed == Some(ExitStatus(FALLBACK_EXIT, startedAt))
    ensures r.Ok? ==> observed == Some(ExitStatus(WatcherExitCode(wait), exitedAt))
  {
    var watcher;
    r, watcher := inst.Start(openPidFd, started, startedAt);
    if r.Ok? {
      watcher.value.Run(wait, exitedAt);
    }
    observed := inst.WaitTimeout();
  }

  /**
   * A failed `start` after a successful one, while the first watcher is still
   * waiting, publishes the 137 default through its own guard; the first
   * watcher's later `set` is ignored, so the real exit status is lost.
   */
  method FailedRestartMasksExit(inst: Instance, openPidFd: i32 -> Result<PidFd, Error>, failure: Error,
                                wait: Result<WaitStatus, Error>, t0: Time, t1: Time, t2: Time)
    returns (first: Result<u32, SandboxError>, second: Result<u32, SandboxError>, observed: Option<ExitStatus>)
    requires inst.exitCode.value == None
    requires inst.container.pid.Some? && openPidFd(inst.container.pid.value).Ok?
    modifies inst, inst.exitCode
    ensures first == Ok(AsU32(old(inst.container.pid).value))
    ensures second == Err(Propagated(failure))
    ensures observed == Some(ExitStatus(FALLBACK_EXIT, t1))
  {
    var w1, w2;
    first, w1 := inst.Start(openPidFd, Ok(()), t0);
    second, w2 := inst.Start(openPidFd, Err(failure), t1);
    w1.value.Run(wait, t2);
    observed := inst.WaitTimeout();
  }
}
