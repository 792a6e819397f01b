/** What a whole session on one wrapper does to its backend: the bootstrap
    calls, then exactly one forwarded call per wrapper operation, in order.
    Each wrapper method's contract (module Runtime) names the one call it
    makes; `Forward` collects those calls so that sessions of any length can
    be reasoned about. */
module Lifecycle {
  import opened Results
  import opened RuntimeInterface
  import opened Selection
  import opened Runtime

  /** One public operation invoked on a ready wrapper. `found` is what
      `exec.LookPath(cmd[0])` returned when `ExecutePayload` ran. */
  datatype Op =
    | LaunchAttestation
    | ExecutePayload(cmd: seq<string>, envp: seq<string>, stdio: Stdio, found: Option<string>)
    | KillPayload(sig: int, pid: int)
    | DestroyInstance

  /** `ExecutePayload` indexes `cmd[0]`, so an empty command line is outside
      its contract (Go panics on it). */
  predicate Issuable(op: Op)
  {
    op.ExecutePayload? ==> |op.cmd| > 0
  }

  /** The backend call a wrapper operation makes, as its method's contract
      states it. */
  function Forward(op: Op): Call
    requires Issuable(op)
  {
    match op
    case LaunchAttestation => Call.Attest
    case ExecutePayload(cmd, envp, stdio, found) => Call.Exec(ResolveHead(cmd, found), envp, stdio)
    case KillPayload(sig, pid) => Call.Kill(sig, pid)
    case DestroyInstance => Call.Destroy
  }

  /** The calls a run of wrapper operations makes, one per operation. */
  function Replay(ops: seq<Op>): seq<Call>
    requires forall i :: 0 <= i < |ops| ==> Issuable(ops[i])
  {
    if ops == [] then [] else [Forward(ops[0])] + Replay(ops[1..])
  }

  /** `Load` and `Init` are the calls that bring a backend up; `Name` is
      left out because every wrapper operation also calls it, for logging. */
  predicate IsLoadOrInit(c: Call)
  {
    c.Load? || c.Init?
  }

  /** Extending a run by one operation extends its calls by that
      operation's one call. */
  lemma {:induction false} ReplayAppend(ops: seq<Op>, op: Op)
    requires forall i :: 0 <= i < |ops| ==> Issuable(ops[i])
    requires Issuable(op)
    ensures Replay(ops + [op]) == Replay(ops) + [Forward(op)]
  {
    if ops == [] {
      assert ops + [op] == [op];
    } else {
      assert (ops + [op])[1..] == ops[1..] + [op];
      ReplayAppend(ops[1..], op);
    }
  }

  /** Every wrapper operation reaches the backend as exactly one call, in the
      order issued, with its arguments unchanged (only `cmd[0]` resolved). */
  lemma {:induction false} ReplayForwardsEach(ops: seq<Op>)
    requires forall i :: 0 <= i < |ops| ==> Issuable(ops[i])
    ensures |Replay(ops)| == |ops|
    ensures forall i :: 0 <= i < |ops| ==> Replay(ops)[i] == Forward(ops[i])
  {
    if ops != [] {
      ReplayForwardsEach(ops[1..]);
    }
  }

  /** How many `Destroy` calls a backend received. */
  function CountDestroy(calls: seq<Call>): nat
  {
    if calls == [] then 0 else (if calls[0].Destroy? then 1 else 0) + CountDestroy(calls[1..])
  }

  /** How many times a session invoked `DestroyInstance`. */
  function CountDestroyOps(ops: seq<Op>): nat
  {
    if ops == [] then 0 else (if ops[0].DestroyInstance? then 1 else 0) + CountDestroyOps(ops[1..])
  }

  lemma {:induction false} CountDestroyConcat(a: seq<Call>, b: seq<Call>)
    ensures CountDestroy(a + b) == CountDestroy(a) + CountDestroy(b)
  {
    if a == [] {
      assert a + b == b;
    } else {
      assert (a + b)[1..] == a[1..] + b;
      CountDestroyConcat(a[1..], b);
    }
  }

  /** `Destroy` reaches the backend exactly as often as `DestroyInstance` is
      invoked: once in a session that calls it once. */
  lemma {:induction false} DestroyForwardedOncePerCall(ops: seq<Op>)
    requires forall i :: 0 <= i < |ops| ==> Issuable(ops[i])
    ensures CountDestroy(Replay(ops)) == CountDestroyOps(ops)
  {
    if ops != [] {
      DestroyForwardedOncePerCall(ops[1..]);
    }
  }

  /** The lifecycle order a ready wrapper's backend sees: `Load`, `Name`,
      `Init`, then never `Load` or `Init` again. */
  predicate Ordered(calls: seq<Call>, path: string, args: string, logLevel: string)
  {
    |calls| >= 3 &&
    calls[..3] == BootSequence(path, args, logLevel) &&
    forall i :: 3 <= i < |calls| ==> !IsLoadOrInit(calls[i])
  }

  /** The bootstrap calls followed by any run of wrapper operations are in
      lifecycle order: `Load` and `Init` happen once, at the start, and
      `Attest`, `Exec`, `Kill` and `Destroy` only after them. */
  lemma {:induction false} SessionOrdered(config: InitEnclaveConfig, logLevel: string, ops: seq<Op>)
    requires forall i :: 0 <= i < |ops| ==> Issuable(ops[i])
    ensures Ordered(BootSequence(config.path, config.args, logLevel) + Replay(ops),
                    config.path, config.args, logLevel)
  {
    var boot := BootSequence(config.path, config.args, logLevel);
    var rest := Replay(ops);
    var calls := boot + rest;
    assert calls[..3] == boot;
    ReplayForwardsEach(ops);
    forall i | 3 <= i < |calls|
      ensures !IsLoadOrInit(calls[i])
    {
      assert calls[i] == rest[i - 3] == Forward(ops[i - 3]);
    }
  }

  /** Runs `ops` on a ready wrapper, each through the wrapper method it
      names. The backend receives exactly `Replay(ops)`, and `Destroy` once
      per `DestroyInstance`. */
  method RunSession(rt: EnclaveRuntimeWrapper, ops: seq<Op>)
    requires forall i :: 0 <= i < |ops| ==> Issuable(ops[i])
    modifies rt.runtime
    ensures rt.runtime.trace == old(rt.runtime.trace) + Replay(ops)
    ensures CountDestroy(rt.runtime.trace) == old(CountDestroy(rt.runtime.trace)) + CountDestroyOps(ops)
  {
    var i := 0;
    while i < |ops|
      invariant 0 <= i <= |ops|
      invariant rt.runtime.trace == old(rt.runtime.trace) + Replay(ops[..i])
    {
      var op := ops[i];
      assert ops[..i + 1] == ops[..i] + [op];
      ReplayAppend(ops[..i], op);
      match op {
        case LaunchAttestation =>
          var _ := rt.LaunchAttestation();
        case ExecutePayload(cmd, envp, stdio, found) =>
          var argv := new string[|cmd|](j requires 0 <= j < |cmd| => cmd[j]);
          assert argv[..] == cmd;
          var _, _ := rt.ExecutePayload(argv, envp, stdio, (name: string) => found);
        case KillPayload(sig, pid) =>
          var _ := rt.KillPayload(sig, pid);
        case DestroyInstance =>
          var _ := rt.DestroyInstance();
      }
      i := i + 1;
    }
    assert ops[..i] == ops;
    CountDestroyConcat(old(rt.runtime.trace), Replay(ops));
    DestroyForwardedOncePerCall(ops);
  }

  /** What a successfully bootstrapped backend sees over a whole session:
      the calls are in lifecycle order, and `Destroy` arrives once per
      `DestroyInstance`. */
  lemma {:induction false} SessionFacts(config: InitEnclaveConfig, logLevel: string, ops: seq<Op>)
    requires forall i :: 0 <= i < |ops| ==> Issuable(ops[i])
    ensures var session := BootSequence(config.path, config.args, logLevel) + Replay(ops);
      Ordered(session, config.path, config.args, logLevel) &&
      CountDestroy(session) == CountDestroyOps(ops)
  {
    SessionOrdered(config, logLevel, ops);
    var boot := BootSequence(config.path, config.args, logLevel);
    assert CountDestroy(boot[2..]) == 0 by { assert boot[2..][1..] == []; }
    assert CountDestroy(boot[1..]) == 0 by { assert boot[1..][1..] == boot[2..]; }
    assert CountDestroy(boot) == 0;
    CountDestroyConcat(boot, Replay(ops));
    DestroyForwardedOncePerCall(ops);
  }

  /** Selection, bootstrap and then a run of wrapper operations. When a
      wrapper is returned, the selected backend has received `Load`, `Name`,
      `Init`, then one call per operation, with `Load` and `Init` never
      repeated and `Destroy` once per `DestroyInstance`; when none is
      returned, no operation reaches any backend. */
  method StartAndRun(core: Result<EnclaveRuntime>, pal: Result<EnclaveRuntime>,
                     config: InitEnclaveConfig, logLevel: string, ops: seq<Op>)
    returns (rt: EnclaveRuntimeWrapper?, err: Status)
    requires forall i :: 0 <= i < |ops| ==> Issuable(ops[i])
    modifies Bound(core, pal)
    ensures rt != null <==> err.Ok?
    ensures rt != null ==>
      Select(core, pal).Success? && rt.runtime == Select(core, pal).value &&
      var b := rt.runtime;
      var session := BootSequence(config.path, config.args, logLevel) + Replay(ops);
      b.trace == old(b.trace) + session &&
      Ordered(session, config.path, config.args, logLevel) &&
      CountDestroy(session) == CountDestroyOps(ops)
    ensures rt == null && Select(core, pal).Success? ==>
      var b := Select(core, pal).value;
      b.trace == old(b.trace) + Bootstrap(b.respond, old(b.trace), config.path, config.args, logLevel).calls
  {
    var attempted;
    rt, err, attempted := StartInitialization(core, pal, config, logLevel);
    if rt != null {
      ghost var before := rt.runtime.trace;
      RunSession(rt, ops);
      SessionFacts(config, logLevel, ops);
      assert rt.runtime.trace == before + Replay(ops);
    }
  }

  /** A backend that accepts every call and gives every payload the same
      process id. */
  function AcceptAll(pid: int32): Oracle
  {
    (h: seq<Call>, c: Call) => Reply(pid, Ok)
  }

  /** Selection and bootstrap for a configuration `core` declines and a
      `pal` backend that accepts every call. */
  lemma FallbackBootstrap(palRuntime: EnclaveRuntime, config: InitEnclaveConfig, logLevel: string)
    requires palRuntime.respond == AcceptAll(42)
    ensures Select(Failure("core declined the image"), Success(palRuntime)) == Success(palRuntime)
    ensures Attempted(Failure("core declined the image"), Success(palRuntime)) == [Core, Pal]
    ensures Bootstrap(palRuntime.respond, [], config.path, config.args, logLevel)
         == Boot(BootSequence(config.path, config.args, logLevel), Ok)
  {
  }

  /** Start-up of the fallback session: `core` declines, so a fresh `pal`
      backend is selected and bootstrapped. */
  method StartOnPal(config: InitEnclaveConfig, logLevel: string)
    returns (rt: EnclaveRuntimeWrapper, attempted: seq<BackendKind>)
    ensures fresh(rt) && fresh(rt.runtime)
    ensures attempted == [Core, Pal]
    ensures rt.runtime.respond == AcceptAll(42)
    ensures rt.runtime.trace == BootSequence(config.path, config.args, logLevel)
  {
    var palRuntime := new EnclaveRuntime("pal", AcceptAll(42));
    FallbackBootstrap(palRuntime, config, logLevel);
    var wrapper, err;
    wrapper, err, attempted := StartInitialization(Failure("core declined the image"), Success(palRuntime),
                                                   config, logLevel);
    rt := wrapper;
  }

  /** The end-to-end session of a configuration only the `pal` backend
      accepts: selection falls back to `pal`, bootstrap succeeds, and then
      `LaunchAttestation`, `ExecutePayload(["my_tool"])` with a lookup that
      finds nothing, `KillPayload(15, pid)` and `DestroyInstance` each reach
      the backend once, with `my_tool` passed through unchanged. */
  method FallbackSession(config: InitEnclaveConfig, logLevel: string, envp: seq<string>, stdio: Stdio)
    returns (attempted: seq<BackendKind>, pid: int32, trace: seq<Call>)
    ensures attempted == [Core, Pal]
    ensures pid == 42
    ensures trace == BootSequence(config.path, config.args, logLevel) +
      [Call.Attest, Call.Exec(["my_tool"], envp, stdio), Call.Kill(15, 42), Call.Destroy]
  {
    var rt;
    rt, attempted := StartOnPal(config, logLevel);
    var err := rt.LaunchAttestation();
    var cmd := new string[1];
    cmd[0] := "my_tool";
    pid, err := rt.ExecutePayload(cmd, envp, stdio, (name: string) => None);
    assert cmd[..] == ["my_tool"];
    err := rt.KillPayload(15, pid as int);
    err := rt.DestroyInstance();
    trace := rt.runtime.trace;
  }
}
