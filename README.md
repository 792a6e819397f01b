# Enclave runtime dispatch layer — a Dafny model

This project models the dispatch-and-lifecycle layer of the `rune` container
runtime's enclave support (`rune/libenclave/internal/runtime/enclave_runtime.go`).
That layer picks one of two enclave backends: the native `core` backend, or
the `pal` platform-abstraction shim if `core` declines. It bootstraps the
chosen backend with `Load`, `Name` and `Init`, and hands back an
`EnclaveRuntimeWrapper`. The wrapper forwards `Attest`, `Exec`, `Kill` and
`Destroy` to that backend. Before `Exec`, it tries to resolve the payload's
`cmd[0]` against the search path.

Files:

- `results.dfy` (module `Results`): Go's `error` (`Status`), `(T, error)` pairs (`Result`) and `Option`.
- `backend.dfy` (module `RuntimeInterface`): the `EnclaveRuntime` interface as a class. A backend records every call it receives in `trace` and answers from an oracle, `respond`. The oracle maps the calls received so far and the new call to the reply.
- `selection.dfy` (module `Selection`): backend selection with ordered fallback.
  - `Select` is the code as written.
  - `FirstAccepted` and `Tried` are the general priority-list rule. The lemma `SelectIsPriorityWalk` ties `Select` to that rule.
- `runtime.dfy` (module `Runtime`): `StartInitialization`, the bootstrap specification `Bootstrap`, the resolve-or-pass-through step `ResolveHead`, and the wrapper class with its four forwarding methods.
- `lifecycle.dfy` (module `Lifecycle`): whole sessions on one wrapper. `RunSession` drives the wrapper methods over a list of operations.
  - Each operation reaches the backend as exactly one call.
  - `Destroy` is forwarded once per `DestroyInstance`.
  - `Load` and `Init` never recur after bootstrap.
  - An end-to-end fallback session is specified and proved call by call (`FallbackSession`).

Foreign calls are parameters:

- `core.StartInitialization(config)` and `pal.StartInitialization(config)` are the two `Result<EnclaveRuntime>` values those packages return for this configuration. The `attempted` result says which of them was actually called.
- `exec.LookPath` is a function from a name to `Option<string>`.
- `*os.File` is the abstract type `File`.

Three behaviours of the code that the model keeps:

- When both backends decline, `StartInitialization` returns `pal`'s error as it is. `core`'s error is dropped.
- Every backend error is returned unchanged, without added context.
- Bootstrap calls `Name()` between `Load` and `Init`. That call is recorded in the trace.

## Model

| member | source | states |
|---|---|---|
| `RuntimeInterface.EnclaveRuntime.constructor` | rune/libenclave/internal/runtime/enclave_runtime.go:12-20 | a backend starts with no calls recorded and answers through the given oracle |
| `RuntimeInterface.EnclaveRuntime.Name` | rune/libenclave/internal/runtime/enclave_runtime.go:13 | `Name` is recorded as one call and returns the backend's name |
| `RuntimeInterface.EnclaveRuntime.Load` | rune/libenclave/internal/runtime/enclave_runtime.go:14 | `Load(path)` is recorded with its path; its error is the backend's answer given its history |
| `RuntimeInterface.EnclaveRuntime.Init` | rune/libenclave/internal/runtime/enclave_runtime.go:15 | `Init(args, logLevel)` is recorded with both arguments; its error is the backend's answer |
| `RuntimeInterface.EnclaveRuntime.Attest` | rune/libenclave/internal/runtime/enclave_runtime.go:16 | `Attest` is recorded; its error is the backend's answer |
| `RuntimeInterface.EnclaveRuntime.Exec` | rune/libenclave/internal/runtime/enclave_runtime.go:17 | `Exec(cmd, envp, stdio)` is recorded with all three arguments; its pid and error are the backend's answer |
| `RuntimeInterface.EnclaveRuntime.Kill` | rune/libenclave/internal/runtime/enclave_runtime.go:18 | `Kill(sig, pid)` is recorded with both arguments; its error is the backend's answer |
| `RuntimeInterface.EnclaveRuntime.Destroy` | rune/libenclave/internal/runtime/enclave_runtime.go:19 | `Destroy` is recorded; its error is the backend's answer |
| `Selection.Tried` | rune/libenclave/internal/runtime/enclave_runtime.go:33-39 | a priority walk starts every candidate up to and including the first that accepts, and all of them when none accepts |
| `Selection.FirstAccepted` | rune/libenclave/internal/runtime/enclave_runtime.go:33-39 | the walk succeeds iff some candidate accepts, then with the first such one; when all decline it fails with the last candidate's error |
| `Selection.Select` | rune/libenclave/internal/runtime/enclave_runtime.go:33-39 | `core` wins whenever it accepts; selection fails only if both decline, and then with `pal`'s error |
| `Selection.SelectIsPriorityWalk` | rune/libenclave/internal/runtime/enclave_runtime.go:33-39 | the two-backend code equals the priority walk over `[core, pal]` |
| `Selection.Attempted` | rune/libenclave/internal/runtime/enclave_runtime.go:33-35 | `core` is always attempted first; `pal` is attempted exactly when `core` declines |
| `Runtime.Bootstrap` | rune/libenclave/internal/runtime/enclave_runtime.go:41-57 | the calls are a prefix of `Load(path) · Name · Init(args, logLevel)`; `Load` is always made; a failed `Load` stops there, and a successful one is always followed by `Name` and `Init`; success iff both `Load` and `Init` succeed; a failure returns the failing call's own error, `Load`'s or `Init`'s |
| `Runtime.ResolveHead` | rune/libenclave/internal/runtime/enclave_runtime.go:73-75 | only the first argument can change: it becomes the found full path, and the command line is unchanged when lookup finds nothing |
| `Runtime.EnclaveRuntimeWrapper.constructor` | rune/libenclave/internal/runtime/enclave_runtime.go:22-24 | the wrapper holds exactly the given backend, in a field that is never reassigned |
| `Runtime.EnclaveRuntimeWrapper.LaunchAttestation` | rune/libenclave/internal/runtime/enclave_runtime.go:60-64 | exactly one `Attest` call; its error is returned unchanged |
| `Runtime.EnclaveRuntimeWrapper.ExecutePayload` | rune/libenclave/internal/runtime/enclave_runtime.go:66-77 | `cmd` is rewritten in place as `ResolveHead` says; exactly one `Exec` call with the rewritten `cmd` and the caller's `envp` and `stdio`; pid and error are returned unchanged; a lookup failure is not an error |
| `Runtime.EnclaveRuntimeWrapper.KillPayload` | rune/libenclave/internal/runtime/enclave_runtime.go:79-87 | exactly one `Kill(sig, pid)` call with both unchanged, the `-1` all-payloads target included; its error is returned unchanged |
| `Runtime.EnclaveRuntimeWrapper.DestroyInstance` | rune/libenclave/internal/runtime/enclave_runtime.go:89-93 | exactly one `Destroy` call; its error is returned unchanged |
| `Runtime.StartInitialization` | rune/libenclave/internal/runtime/enclave_runtime.go:26-58 | only the selected backend is touched, and no backend at all when both decline, in which case the result is `(nil, pal's error)`; the selected backend receives exactly the `Bootstrap` calls; a wrapper is returned, fresh and bound to that backend, iff bootstrap succeeds |
| `Lifecycle.ReplayAppend` | rune/libenclave/internal/runtime/enclave_runtime.go:60-93 | one more wrapper operation adds exactly its one forwarded call to the end of the session's calls |
| `Lifecycle.ReplayForwardsEach` | rune/libenclave/internal/runtime/enclave_runtime.go:60-93 | the calls of a run of operations are one per operation, in order, the i-th being the i-th operation's forwarded call |
| `Lifecycle.RunSession` | rune/libenclave/internal/runtime/enclave_runtime.go:60-93 | invoking the wrapper methods for a list of operations adds exactly `Replay(ops)` to the backend's trace, and `Destroy` once per `DestroyInstance` |
| `Lifecycle.DestroyForwardedOncePerCall` | rune/libenclave/internal/runtime/enclave_runtime.go:89-93 | the calls of a run of operations contain `Destroy` exactly as many times as the run invokes `DestroyInstance` |
| `Lifecycle.SessionOrdered` | rune/libenclave/internal/runtime/enclave_runtime.go:41-93 | the bootstrap calls followed by the calls of any run of operations start with `Load · Name · Init` and never contain `Load` or `Init` again (the `Name` calls made for logging are not recorded) |
| `Lifecycle.StartAndRun` | rune/libenclave/internal/runtime/enclave_runtime.go:26-93 | after start-up and a run of operations, a returned wrapper's backend is the selected one and has received `Load · Name · Init` then one call per operation, in lifecycle order, with `Destroy` once per `DestroyInstance`; without a wrapper, the backend saw only the bootstrap calls |
| `Lifecycle.FallbackSession` | rune/libenclave/internal/runtime/enclave_runtime.go:26-93 | a configuration only `pal` accepts: `core` then `pal` are attempted; the backend sees `Load · Name · Init · Attest · Exec(["my_tool"]) · Kill(15, pid) · Destroy`; `my_tool` is passed through when lookup finds nothing, and the backend's pid is returned |

## Left out

- Logging through `logrus` (lines 27, 41, 48, 61, 67, 81, 83, 90) has no effect on control flow. So do the `Name()` calls made only to build log messages. Only the `Name()` call at line 46 is recorded in the trace. The `pid != -1` branch of `KillPayload` only chooses a log message and is not modelled as a branch.
- The internals of the `core` and `pal` packages are not modelled. This covers their `StartInitialization` and each backend operation. They are represented only by the values and oracle answers they produce.
- `exec.LookPath` searches the file system and `PATH`. Here it is a function parameter.
- `configs.InitEnclaveConfig` parsing is not modelled. Only `Path` and `Args` are read.
- The `*os.File` handles are opaque.
- `Runtime.EnclaveRuntimeWrapper.ExecutePayload`: the backend's `Exec` receives a copy of `cmd`. In Go it receives the same slice, so the model does not capture the backend writing into the caller's slice.
- `Runtime.EnclaveRuntimeWrapper.ExecutePayload`: an empty `cmd` makes Go panic at `cmd[0]`. The model requires a non-empty command line instead of modelling the panic.
- A nil wrapper receiver and a nil backend returned with a nil error by a package's `StartInitialization` are not modelled. Both would make Go panic.
- Concurrent use of one wrapper is not modelled. This layer introduces no concurrency of its own.
- `Lifecycle.RunSession` gives each `ExecutePayload` a fresh array holding that operation's command line, and a lookup that returns the result recorded in the operation. It does not model a caller reusing one slice across calls.
- Backends are deterministic in the model: each answer is a function of the calls received before.
