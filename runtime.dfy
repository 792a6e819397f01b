/** The dispatch-and-lifecycle layer of
    rune/libenclave/internal/runtime/enclave_runtime.go: selecting a backend,
    bootstrapping it (`Load`, `Name`, `Init`) and the wrapper that forwards
    the public lifecycle operations to it.

    Foreign calls are parameters: the two packages' `StartInitialization`
    results arrive as values (what each would return for this configuration),
    and `exec.LookPath` is a function from a command name to the full path it
    finds, if any. */
module Runtime {
  import opened Results
  import opened RuntimeInterface
  import opened Selection

  /** The two fields of `configs.InitEnclaveConfig` this layer reads. */
  datatype InitEnclaveConfig = InitEnclaveConfig(path: string, args: string)

  /** What bootstrapping a selected backend does to it: the calls it receives
      and the error `StartInitialization` then returns (`Ok` for a ready
      wrapper). */
  datatype Boot = Boot(calls: seq<Call>, status: Status)

  /** The full bootstrap sequence, in the order the source issues it. */
  function BootSequence(path: string, args: string, logLevel: string): seq<Call>
  {
    [Call.Load(path), Call.Name, Call.Init(args, logLevel)]
  }

  /** Bootstrap of a backend that answers through `respond` and has already
      received the calls `h`. `Load` always comes first; a failed `Load`
      stops everything, `Init` follows `Name` exactly when `Load` succeeds,
      and the error returned is the failing call's own. */
  function Bootstrap(respond: Oracle, h: seq<Call>, path: string, args: string, logLevel: string): (r: Boot)
    ensures 1 <= |r.calls| <= 3
    ensures r.calls == BootSequence(path, args, logLevel)[..|r.calls|]
    ensures |r.calls| == 1 <==> respond(h, Call.Load(path)).status.Err?
    ensures r.status.Ok? <==>
      respond(h, Call.Load(path)).status.Ok? &&
      respond(h + [Call.Load(path), Call.Name], Call.Init(args, logLevel)).status.Ok?
    ensures respond(h, Call.Load(path)).status.Ok? ==> r.calls == BootSequence(path, args, logLevel)
    ensures r.status.Ok? ==> r.calls == BootSequence(path, args, logLevel)
    ensures r.status.Err? ==>
      var last := |r.calls| - 1;
      r.status == respond(h + r.calls[..last], r.calls[last]).status
  {
    var load := respond(h, Call.Load(path)).status;
    if load.Err? then
      assert h + [Call.Load(path)][..0] == h;
      Boot([Call.Load(path)], load)
    else
      var init := respond(h + [Call.Load(path), Call.Name], Call.Init(args, logLevel)).status;
      assert BootSequence(path, args, logLevel)[..2] == [Call.Load(path), Call.Name];
      Boot(BootSequence(path, args, logLevel), init)
  }

  /** The backend selection binds, as a frame: empty when both decline. */
  function Bound(core: Result<EnclaveRuntime>, pal: Result<EnclaveRuntime>): (s: set<EnclaveRuntime>)
    ensures s == {} <==> Select(core, pal).Failure?
    ensures Select(core, pal).Success? ==> s == {Select(core, pal).value}
  {
    var sel := Select(core, pal);
    if sel.Success? then {sel.value} else {}
  }

  /** `cmd` after the path-resolution step of `ExecutePayload`: the first
      argument is replaced by the full path when the lookup found one and
      left as it is otherwise; nothing after it changes. */
  function ResolveHead(cmd: seq<string>, found: Option<string>): (r: seq<string>)
    requires |cmd| > 0
    ensures |r| == |cmd|
    ensures r[1..] == cmd[1..]
    ensures found.Some? ==> r[0] == found.value
    ensures found.None? ==> r == cmd
  {
    match found
    case None => cmd
    case Some(fullPath) => [fullPath] + cmd[1..]
  }

  /** Go's `EnclaveRuntimeWrapper`: owns the one bound backend, which is
      never replaced. */
  class EnclaveRuntimeWrapper {
    const runtime: EnclaveRuntime

    constructor (runtime: EnclaveRuntime)
      ensures this.runtime == runtime
    {
      this.runtime := runtime;
    }

    /** One `Attest` call; its error is returned unchanged. */
    method LaunchAttestation() returns (err: Status)
      modifies runtime
      ensures runtime.trace == old(runtime.trace) + [Call.Attest]
      ensures err == runtime.respond(old(runtime.trace), Call.Attest).status
    {
      err := runtime.Attest();
    }

    /** Resolves `cmd[0]` in place when the lookup succeeds (a failed lookup
        is not an error), then makes one `Exec` call with the possibly
        rewritten `cmd` and the caller's `envp` and `stdio`, and returns the
        backend's process id and error unchanged. */
    method ExecutePayload(cmd: array<string>, envp: seq<string>, stdio: Stdio,
                          lookPath: string -> Option<string>)
      returns (pid: int32, err: Status)
      requires cmd.Length > 0
      modifies cmd, runtime
      ensures cmd[..] == ResolveHead(old(cmd[..]), lookPath(old(cmd[0])))
      ensures runtime.trace == old(runtime.trace) + [Call.Exec(cmd[..], envp, stdio)]
      ensures Reply(pid, err) == runtime.respond(old(runtime.trace), Call.Exec(cmd[..], envp, stdio))
    {
      var found := lookPath(cmd[0]);
      if found.Some? {
        cmd[0] := found.value;
      }
      pid, err := runtime.Exec(cmd[..], envp, stdio);
    }

    /** One `Kill` call with the signal and target unchanged; `pid == -1`
        (every payload in the enclave) is passed on as it is. */
    method KillPayload(sig: int, pid: int) returns (err: Status)
      modifies runtime
      ensures runtime.trace == old(runtime.trace) + [Call.Kill(sig, pid)]
      ensures err == runtime.respond(old(runtime.trace), Call.Kill(sig, pid)).status
    {
      err := runtime.Kill(sig, pid);
    }

    /** One `Destroy` call; its error is returned unchanged. */
    method DestroyInstance() returns (err: Status)
      modifies runtime
      ensures runtime.trace == old(runtime.trace) + [Call.Destroy]
      ensures err == runtime.respond(old(runtime.trace), Call.Destroy).status
    {
      err := runtime.Destroy();
    }
  }

  /** Go's `StartInitialization`: select a backend (`core` first, `pal` on
      fallback), then `Load`, `Name` and `Init` it, returning a wrapper only
      when all succeed. Only the selected backend is touched, and nothing at
      all when both decline. `attempted` lists the packages whose
      `StartInitialization` was called. */
  method StartInitialization(core: Result<EnclaveRuntime>, pal: Result<EnclaveRuntime>,
                             config: InitEnclaveConfig, logLevel: string)
    returns (rt: EnclaveRuntimeWrapper?, err: Status, attempted: seq<BackendKind>)
    modifies Bound(core, pal)
    ensures attempted == Attempted(core, pal)
    ensures Select(core, pal).Failure? ==>
      rt == null && err == Err(Select(core, pal).error)
    ensures Select(core, pal).Success? ==>
      var b := Select(core, pal).value;
      var boot := Bootstrap(b.respond, old(b.trace), config.path, config.args, logLevel);
      b.trace == old(b.trace) + boot.calls &&
      err == boot.status &&
      (rt != null <==> err.Ok?) &&
      (rt != null ==> fresh(rt) && rt.runtime == b)
  {
    attempted := [Core];
    var started := core;
    if started.Failure? {
      attempted := attempted + [Pal];
      started := pal;
      if started.Failure? {
        return null, Err(started.error), attempted;
      }
    }
    var runtime := started.value;
    assert runtime == Select(core, pal).value;
    ghost var h := runtime.trace;
    ghost var boot := Bootstrap(runtime.respond, h, config.path, config.args, logLevel);

    err := runtime.Load(config.path);
    if err.Err? {
      assert boot.calls == [Call.Load(config.path)] && boot.status == err;
      return null, err, attempted;
    }
    var _ := runtime.Name();

    assert runtime.trace == h + [Call.Load(config.path), Call.Name];
    err := runtime.Init(config.args, logLevel);
    assert boot.calls == BootSequence(config.path, config.args, logLevel) && boot.status == err;
    if err.Err? {
      return null, err, attempted;
    }

    rt := new EnclaveRuntimeWrapper(runtime);
  }
}
