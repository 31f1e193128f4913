# containerd-shim-wasm: exit-code resolution, role dispatch and the unix instance lifecycle

This project models two pieces of the containerd wasm shim in Dafny and proves properties of them.

1. **The code that `#[main]` and `#[validate]` generate** (`crates/containerd-shim-wasm-macros/src/lib.rs`).
   - `termination.dfy` covers the `WasiTermination` implementations. They turn what a handler returns into a process exit: `()` gives 0, an `i32` gives that value, `Err(e)` logs `error: <e>` and gives 137, and `Ok(t)` resolves as `t` does. A future is resolved through its output.
   - `can_handle.dfy` covers the `WasiCanHandle` implementations: `true` and `()` accept, `false` fails with `can't handle workflow`, and `Err(e)` fails with `e`. It also covers the default entrypoint check and `Engine::can_handle`, which lets a validator take precedence over that check.
   - `bootstrap.dfy` covers the generated `main`. It applies the `--version` short-circuit, takes the file stem of argv[0] the way `Path::file_stem` does on unix, and compares that stem exactly against `containerd-shim-<name>-v1`, `containerd-shim-<name>d-v1` and `containerd-<name>d`. `<name>` is the lower-cased macro argument, which is also `Engine::name()`. Any other stem gives a usage error on stderr and exit code 137.
2. **The unix `Instance`** (`crates/containerd-shim-wasm/src/sys/unix/container/instance.rs`).
   - `sync.dfy` models the one-shot exit cell (`WaitableCell`) only as far as this file uses it. `new` creates it empty. `set` succeeds only for the first writer. `set_guard_with` returns a guard that writes its default when dropped, if nothing was published yet. `wait_timeout` returns nothing or the published value. `Publish`/`PublishAll` give the reference semantics: the first write wins and is final.
   - `instance.dfy` holds the `Instance` class, with its exit cell and a container reduced to its pid and the calls made on it.
     - `start` arms the `(137, now)` guard before its three fallible steps: the pid lookup, the pidfd and `container.start()`. On any failure it returns the error, and the guard's drop publishes 137.
     - On success the guard moves into a `Watcher` object, which stands for the spawned thread. Its `Run` step maps the wait status (exited gives the status, signalled gives 128 plus the signal, anything else gives 137), `set`s the cell, and then drops the guard.
     - `kill` rejects a number that is not a signal before it touches the container, and forwards a valid one with `all = true`.
     - `delete` forwards `force = true`. The errors of both are passed on unchanged.
     - `new` is modelled by `Construct`. A failure to load the modules degrades to no layers and the default platform. A failure to connect to containerd is passed on. Any failure of the isolated build becomes `Others(<text>)`. The isolated build resolves the root directory against `/run/containerd/<engine>`.

`base.dfy` holds the shared `Option`, `Result` and error types, plus the `i32`/`u32` casts the source performs.

Three facts about the code are worth stating directly:
- A failure to connect to containerd is also a hard error in `new`, because of the `?` at `instance.rs:43`.
- `kill` forwards every valid signal to the container, whatever its state.
- The generated code passes the handler's full `i32` to `process::exit`.

Some consequences follow directly from the contracts:
- The manager daemon always binds `unix:///run/io.containerd.wasmwasi.v1/manager.sock`, whatever the engine's name.
- A fallback of 137 cannot be told apart from a SIGKILL death (`SignalCodesDecode`).
- If `start` fails after an earlier `start` succeeded while the first watcher is still waiting, that failing `start` publishes the 137 default. The first watcher's later `set` is then ignored (`FailedRestartMasksExit`).

## Model

| member | source | states |
|---|---|---|
| Base.AsU32 | crates/containerd-shim-wasm/src/sys/unix/container/instance.rs:130 | `as u32` on an `i32` keeps the 32-bit pattern: the result is the value modulo 2^32 |
| Base.AsI32 | crates/containerd-shim-wasm/src/sys/unix/container/instance.rs:141 | `signal as i32` keeps the 32-bit pattern: the result is congruent to the input modulo 2^32 |
| Base.CastsRoundTrip | crates/containerd-shim-wasm/src/sys/unix/container/instance.rs:130-134 | the two casts are inverse bijections, and the identity on values that fit both types |
| Termination.Peel | crates/containerd-shim-wasm-macros/src/lib.rs:86-95 | stripping the `Ok` layers always ends at a leaf: `()`, an `i32` or an `Err` |
| Termination.Decompose | crates/containerd-shim-wasm-macros/src/lib.rs:64-96 | every handler result is its leaf wrapped in some number of `Ok` layers |
| Termination.ResolveThroughOk | crates/containerd-shim-wasm-macros/src/lib.rs:86-95 | resolving `Ok(t)` equals resolving `t`, at every nesting depth |
| Termination.ResolveIsLeafExit | crates/containerd-shim-wasm-macros/src/lib.rs:64-96 | the exit is decided by the leaf alone: 0 for `()`, the value for an `i32`, 137 plus a logged line for `Err` |
| Termination.UnitExitsZero | crates/containerd-shim-wasm-macros/src/lib.rs:68-72 | `()` under any number of `Ok` layers exits 0 and logs nothing |
| Termination.CodeExitsWithIt | crates/containerd-shim-wasm-macros/src/lib.rs:74-78 | an `i32` under any number of `Ok` layers exits with exactly that value |
| Termination.ErrExitsFailure | crates/containerd-shim-wasm-macros/src/lib.rs:88-93 | `Err(e)` under any number of `Ok` layers logs `error: <e>` and exits 137 |
| Termination.ResolveCases | crates/containerd-shim-wasm-macros/src/lib.rs:64-96 | the exit code is 0, 137 or the handler's own `i32`, and a line is logged exactly when the leaf is an error |
| Termination.FutureResolvesLikeItsOutput | crates/containerd-shim-wasm-macros/src/lib.rs:14-31 | a future exits as its output's leaf decides: 0, the handler's `i32`, or 137 with a logged line |
| CanHandle.Peel | crates/containerd-shim-wasm-macros/src/lib.rs:202-209 | stripping the `Ok` layers always ends at a `bool`, `()` or `Err` leaf |
| CanHandle.Decompose | crates/containerd-shim-wasm-macros/src/lib.rs:185-209 | every validator result is its leaf wrapped in some number of `Ok` layers |
| CanHandle.ReportThroughOk | crates/containerd-shim-wasm-macros/src/lib.rs:202-209 | reporting `Ok(x)` equals reporting `x`, at every nesting depth |
| CanHandle.ReportByLeaf | crates/containerd-shim-wasm-macros/src/lib.rs:189-209 | the report is `Ok(())` exactly for a `true` or `()` leaf; `false` fails with `can't handle workflow`; `Err(e)` fails with `e` unchanged |
| CanHandle.ReportErrorOrigin | crates/containerd-shim-wasm-macros/src/lib.rs:189-209 | every failure is either the `false` context or an error the validator itself returned |
| CanHandle.EngineCanHandleDelegates | crates/containerd-shim-wasm-macros/src/lib.rs:36-59 | with a validator the entrypoint is never consulted; without one the check passes exactly when the entrypoint resolves, and otherwise its error is passed on |
| CanHandle.FutureReportsLikeItsOutput | crates/containerd-shim-wasm-macros/src/lib.rs:161-178 | a future validator accepts exactly when its output's leaf is `true` or `()` |
| Bootstrap.LowerAt | crates/containerd-shim-wasm-macros/src/lib.rs:11 | lower-casing keeps the length and maps each character by itself |
| Bootstrap.LowerLength | crates/containerd-shim-wasm-macros/src/lib.rs:11 | lower-casing keeps the length |
| Bootstrap.EngineNameIsLowerCase | crates/containerd-shim-wasm-macros/src/lib.rs:53-55 | `Engine::name()` has no upper-case letter, and lower-casing it again changes nothing |
| Bootstrap.EngineNameHasNoPathChars | crates/containerd-shim-wasm-macros/src/lib.rs:9-11 | the name of an identifier-forming macro argument contains neither '/' nor '.' |
| Bootstrap.AfterLastSlash | crates/containerd-shim-wasm-macros/src/lib.rs:108-109 | the last path segment is a '/'-free suffix that follows a '/' or starts the path |
| Bootstrap.LastDot | crates/containerd-shim-wasm-macros/src/lib.rs:109 | the position found holds a '.' with no '.' after it; none means the name has no '.' |
| Bootstrap.TrimTailKeeps | crates/containerd-shim-wasm-macros/src/lib.rs:108-109 | a path that ends in neither a separator nor a `.` component keeps all its components |
| Bootstrap.FileNameOfPlacedName | crates/containerd-shim-wasm-macros/src/lib.rs:108-109 | a plain name, given bare or under any directory, is the path's file name |
| Bootstrap.StemOfPlain | crates/containerd-shim-wasm-macros/src/lib.rs:109 | a file name without '.' is its own stem |
| Bootstrap.StemOfInstalledBinary | crates/containerd-shim-wasm-macros/src/lib.rs:108-109 | a name with no '/' or '.' is its own stem, given bare or under any directory |
| Bootstrap.LastDotOfSuffixedName | crates/containerd-shim-wasm-macros/src/lib.rs:109 | in `name.ext` the last '.' is the one just after `name` |
| Bootstrap.StemDropsExtension | crates/containerd-shim-wasm-macros/src/lib.rs:108-109 | `dir/name.ext` has stem `name` |
| Bootstrap.RoleNamesDistinct | crates/containerd-shim-wasm-macros/src/lib.rs:121-123 | the three role names have lengths n+19, n+20 and n+12, so they are pairwise distinct |
| Bootstrap.DispatchSelectsRole | crates/containerd-shim-wasm-macros/src/lib.rs:121-148 | the CLI (id `io.containerd.<name>.v1`), the manager client and the daemon are each chosen exactly when the stem equals their name; otherwise the result is a usage error with exit 137 |
| Bootstrap.UsageMessageMentions | crates/containerd-shim-wasm-macros/src/lib.rs:146 | the usage text contains each of the three expected names |
| Bootstrap.UsageNamesAllRoles | crates/containerd-shim-wasm-macros/src/lib.rs:145-147 | an unrecognised stem prints one stderr line naming all three names and nothing on stdout |
| Bootstrap.DispatchNeverPanics | crates/containerd-shim-wasm-macros/src/lib.rs:121-148 | choosing a role never panics: every stem leads to a role or to the usage exit |
| Bootstrap.StartupPanics | crates/containerd-shim-wasm-macros/src/lib.rs:106-109 | `main` panics exactly when argv is empty or the flags fail to parse, the latter with the `unwrap` message |
| Bootstrap.VersionShortCircuits | crates/containerd-shim-wasm-macros/src/lib.rs:111-119 | with the version flag, `main` prints the stem, runtime, version and revision lines and a blank line, then exits 0, before any role is considered |
| Bootstrap.InstalledBinarySelectsRole | crates/containerd-shim-wasm-macros/src/lib.rs:105-130 | a binary installed under any directory as one of the three names, run without `--version`, starts that name's role |
| Sync.PublishedIsFinal | crates/containerd-shim-wasm/src/sys/unix/container/instance.rs:131 | once the cell holds a value, no later write changes it |
| Sync.FirstWriterWins | crates/containerd-shim-wasm/src/sys/unix/container/instance.rs:104-131 | from an empty cell, the first write attempt is the value every reader sees |
| Sync.PublishAllAppend | crates/containerd-shim-wasm/src/sys/unix/container/instance.rs:104-131 | write attempts compose in sequence: a later batch sees only the outcome of the earlier one |
| Sync.PublishAllHoldsAWrite | crates/containerd-shim-wasm/src/sys/unix/container/instance.rs:103-104 | after any write attempt the cell is non-empty and holds its earlier value or one of the written values |
| Sync.WaitableCell.constructor | crates/containerd-shim-wasm/src/sys/unix/container/instance.rs:91 | a new cell is empty |
| Sync.WaitableCell.Set | crates/containerd-shim-wasm/src/sys/unix/container/instance.rs:131 | `set` succeeds exactly when the cell was empty, and only then stores the value |
| Sync.WaitableCell.SetGuardWith | crates/containerd-shim-wasm/src/sys/unix/container/instance.rs:104 | arming a guard leaves the cell untouched and yields a live guard bound to this cell with the given default code |
| Sync.WaitableCell.WaitTimeout | crates/containerd-shim-wasm/src/sys/unix/container/instance.rs:170 | nothing while the cell is empty, otherwise the published value; the cell is not changed |
| Sync.ExitGuard.Drop | crates/containerd-shim-wasm/src/sys/unix/container/instance.rs:104 | dropping the guard writes `(code, now)` only when nothing was published before |
| UnixInstance.SignalTryFrom | crates/containerd-shim-wasm/src/sys/unix/container/instance.rs:141-143 | a number is accepted exactly when it is a Linux signal (1..31), and is then kept as is |
| UnixInstance.WatcherExitCodeCases | crates/containerd-shim-wasm/src/sys/unix/container/instance.rs:119-130 | exited publishes the status (cast to `u32`), signalled publishes 128 + signal, and any other status or a failed wait publishes 137 |
| UnixInstance.SignalCodesDecode | crates/containerd-shim-wasm/src/sys/unix/container/instance.rs:121-128 | a signal death publishes a code in 129..159 that gives back the signal; the 137 fallback equals a SIGKILL death's code |
| UnixInstance.ModuleLoadFailureDegrades | crates/containerd-shim-wasm/src/sys/unix/container/instance.rs:43-49 | a failing module load gives the same construction result as an empty module set with the default platform |
| UnixInstance.ConstructOutcomes | crates/containerd-shim-wasm/src/sys/unix/container/instance.rs:41-95 | a connection failure is passed on unchanged; an isolated-executor fault, a root-dir failure or a build failure becomes `Others(<text>)`; otherwise the container built from the root dir resolved against `/run/containerd/<engine>` is returned |
| UnixInstance.Watcher.Run | crates/containerd-shim-wasm/src/sys/unix/container/instance.rs:115-132 | the watcher publishes `(mapped code, now)` only if the cell is still empty, and its guard is then dropped without effect |
| UnixInstance.Watcher.Unwind | crates/containerd-shim-wasm/src/sys/unix/container/instance.rs:116-117 | a watcher that ends before its `set` still publishes the guard's `(137, now)` if the cell is empty |
| UnixInstance.Instance.constructor | crates/containerd-shim-wasm/src/sys/unix/container/instance.rs:89-94 | a new instance owns a fresh, empty exit cell and the given container |
| UnixInstance.Instance.New | crates/containerd-shim-wasm/src/sys/unix/container/instance.rs:41-95 | `new` fails with the construction error, or yields an instance with the built container and an empty exit cell |
| UnixInstance.Instance.Start | crates/containerd-shim-wasm/src/sys/unix/container/instance.rs:101-135 | a missing pid, a pidfd failure or a start failure returns that error, and the cell then ends holding `(137, now)` unless it was already set; on success the pid is returned as `u32`, the cell is unchanged and a watcher holds the armed guard; `container.start()` is called only after the pidfd opened |
| UnixInstance.Instance.Kill | crates/containerd-shim-wasm/src/sys/unix/container/instance.rs:139-151 | a non-signal returns `InvalidArgument` and leaves the container untouched; a signal is forwarded with `all = true` and the container's error is passed on unchanged |
| UnixInstance.Instance.Delete | crates/containerd-shim-wasm/src/sys/unix/container/instance.rs:156-163 | a delete with `force = true` is forwarded and its error passed on unchanged |
| UnixInstance.Instance.WaitTimeout | crates/containerd-shim-wasm/src/sys/unix/container/instance.rs:169-171 | nothing while the exit cell is empty, a copy of the published status once it is set |
| UnixInstance.FailedRestartMasksExit | crates/containerd-shim-wasm/src/sys/unix/container/instance.rs:101-135 | a successful `start`, then a failed one, then the first watcher's step leaves `(137, time of the failed start)` in the cell, whatever the process's real exit |
| UnixInstance.StartThenWait | crates/containerd-shim-wasm/src/sys/unix/container/instance.rs:101-132 | on a fresh instance, start followed by the watcher's step always leaves a status to read: the mapped code after a successful start, `(137, start time)` after a failed one |

## Left out

- `Infallible` has no values, so `Completion` has no variant for it. Its implementation (`match self {}`) needs no branch.
- The proc-macro machinery (`syn` parsing, `quote!`, identifier renaming, `cfg!(feature = "tokio")`) is not modelled. Only the behaviour of the generated code is.
- The tokio runtime, `OnceLock` and `block_on` are not modelled: a future is represented by its output.
- Bootstrap.Lower: only ASCII letters are lower-cased. Non-ASCII identifier characters are kept as they are, whereas `str::to_lowercase` maps them by Unicode rules.
- Bootstrap.IsEngineIdent is an approximation of Rust's identifier rules: ASCII letters, digits and `_`, plus any non-ASCII character.
- Bootstrap.FileStem works on `string`. Non-UTF-8 bytes in argv[0] and their replacement by `to_string_lossy` are not modelled.
- Bootstrap.Main stops at the role it selects. The bodies of `shim::run` for the CLI and the manager client, and the daemon's ttrpc bind, register, start and endless `recv`, are not modelled: they are network I/O followed by a block. `ServeManager` records the socket path. A panic while binding or starting the server is not modelled.
- The `log::info!`, `log::warn!`, `log::error!` and tracing calls are not modelled. The one exception is the `error: <e>` line logged before exit 137.
- `process::exit` is represented by the code it would receive. The OS keeping only the low 8 bits is not modelled.
- Zygote is not modelled: the isolated executor appears as `isolationFault`, and `WireError` as its text. `determine_rootdir`, `ContainerBuilder`, `with_root_path` and `build` are collaborators given as functions; a failure of `with_root_path` counts as a failure of `build`.
- Opening stdin, stdout and stderr is not modelled. These steps are best-effort and never fail construction.
- `PidFd`, waitpid, `thread::spawn` and the `Mutex` are not modelled: the methods run one at a time, and the watcher thread is the explicit `Watcher.Run` step. Interleavings between the watcher and `kill` or `delete` are not modelled.
- UnixInstance.Instance.WaitTimeout returns what the cell holds when it is called. Blocking until a value arrives or the timeout runs out is not modelled: an expired timeout is represented as a read of an empty cell.
- Sync.WaitableCell.WaitTimeout: same as above.
- UnixInstance.Instance.Kill: the `InvalidArgument` text is `invalid signal number: ` followed by a fixed stand-in for the signal library's own error text, which is not part of this model.
- UnixInstance.SignalTryFrom accepts 1..31, the signals the nix `Signal` type defines on Linux x86_64. Other architectures are not modelled.
- `WaitableCell` is not part of this model beyond what `instance.rs` uses. Its internals (the lock, the condition variable, shared ownership through clones) are not modelled: clones are the same object here.
- `DateTime<Utc>` and `Utc::now()` are not modelled: an abstract `Time` stands in for them and is given to each method as a parameter.
