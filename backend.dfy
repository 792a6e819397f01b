/** The backend capability contract: Go's `EnclaveRuntime` interface
    (rune/libenclave/internal/runtime/enclave_runtime.go, lines 12-20).
    The backends themselves live in packages this model does not see, so a
    backend is an object that records every call made on it, in order, and
    answers each call from an oracle given when the object is built. */
module RuntimeInterface {
  import opened Results

  /** Go's `int32`, the type of the process id `Exec` returns. */
  newtype int32 = x: int | -0x8000_0000 <= x < 0x8000_0000

  /** An open `*os.File`; the core never looks inside one. */
  type File(==)

  /** The `[3]*os.File` standard I/O triple handed to `Exec`. */
  datatype Stdio = Stdio(stdin: File, stdout: File, stderr: File)

  /** One call on a backend, with the arguments it received. */
  datatype Call =
    | Name
    | Load(path: string)
    | Init(args: string, logLevel: string)
    | Attest
    | Exec(cmd: seq<string>, envp: seq<string>, stdio: Stdio)
    | Kill(sig: int, pid: int)
    | Destroy

  /** What a backend answers: the `error` every operation returns and the
      process id only `Exec` returns (ignored for the other calls). */
  datatype Reply = Reply(pid: int32, status: Status)

  /** A backend's behaviour: its answer to a call, given every call it has
      received before. This covers any deterministic backend, whatever state
      it keeps. */
  type Oracle = (seq<Call>, Call) -> Reply

  /** One bound enclave backend (`core` or `pal`). */
  class EnclaveRuntime {
    /** What `Name()` returns. */
    const name: string
    /** How the backend answers the calls that can fail. */
    const respond: Oracle
    /** Every call made on this backend so far, oldest first. */
    var trace: seq<Call>

    constructor (name: string, respond: Oracle)
      ensures this.name == name && this.respond == respond
      ensures trace == []
    {
      this.name := name;
      this.respond := respond;
      trace := [];
    }

    method Name() returns (n: string)
      modifies this
      ensures trace == old(trace) + [Call.Name]
      ensures n == name
    {
      n := name;
      trace := trace + [Call.Name];
    }

    method Load(path: string) returns (err: Status)
      modifies this
      ensures trace == old(trace) + [Call.Load(path)]
      ensures err == respond(old(trace), Call.Load(path)).status
    {
      err := respond(trace, Call.Load(path)).status;
      trace := trace + [Call.Load(path)];
    }

    method Init(args: string, logLevel: string) returns (err: Status)
      modifies this
      ensures trace == old(trace) + [Call.Init(args, logLevel)]
      ensures err == respond(old(trace), Call.Init(args, logLevel)).status
    {
      err := respond(trace, Call.Init(args, logLevel)).status;
      trace := trace + [Call.Init(args, logLevel)];
    }

    method Attest() returns (err: Status)
      modifies this
      ensures trace == old(trace) + [Call.Attest]
      ensures err == respond(old(trace), Call.Attest).status
    {
      err := respond(trace, Call.Attest).status;
      trace := trace + [Call.Attest];
    }

    method Exec(cmd: seq<string>, envp: seq<string>, stdio: Stdio) returns (pid: int32, err: Status)
      modifies this
      ensures trace == old(trace) + [Call.Exec(cmd, envp, stdio)]
      ensures Reply(pid, err) == respond(old(trace), Call.Exec(cmd, envp, stdio))
    {
      var reply := respond(trace, Call.Exec(cmd, envp, stdio));
      pid, err := reply.pid, reply.status;
      trace := trace + [Call.Exec(cmd, envp, stdio)];
    }

    method Kill(sig: int, pid: int) returns (err: Status)
      modifies this
      ensures trace == old(trace) + [Call.Kill(sig, pid)]
      ensures err == respond(old(trace), Call.Kill(sig, pid)).status
    {
      err := respond(trace, Call.Kill(sig, pid)).status;
      trace := trace + [Call.Kill(sig, pid)];
    }

    method Destroy() returns (err: Status)
      modifies this
      ensures trace == old(trace) + [Call.Destroy]
      ensures err == respond(old(trace), Call.Destroy).status
    {
      err := respond(trace, Call.Destroy).status;
      trace := trace + [Call.Destroy];
    }
  }
}
