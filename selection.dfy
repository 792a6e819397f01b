/** Backend selection with ordered fallback
    (rune/libenclave/internal/runtime/enclave_runtime.go, lines 33-39).

    The source hard-codes two candidates: the native `core` backend, then the
    `pal` shim. `Select` is that code as written; `FirstAccepted` is the
    general rule it follows (walk a priority list, take the first candidate
    that accepts, otherwise report the last error), and `Select`'s contract
    says the two agree. */
module Selection {
  import opened Results

  datatype BackendKind = Core | Pal

  /** The fixed priority order: native backend first. */
  const Priority: seq<BackendKind> := [Core, Pal]

  /** How many candidates a priority walk starts: every one up to and
      including the first that accepts, or all of them if none does. */
  function Tried<T>(cands: seq<Result<T>>): (n: nat)
    requires |cands| > 0
    ensures 1 <= n <= |cands|
    ensures forall j :: 0 <= j < n - 1 ==> cands[j].Failure?
    ensures cands[n - 1].Success? || n == |cands|
    decreases |cands|
  {
    if cands[0].Success? || |cands| == 1 then 1 else 1 + Tried(cands[1..])
  }

  /** The outcome of a priority walk: the first candidate that accepts, or,
      when all decline, the last candidate's error. */
  function FirstAccepted<T>(cands: seq<Result<T>>): (r: Result<T>)
    requires |cands| > 0
    ensures r.Success? <==> exists i :: 0 <= i < |cands| && cands[i].Success?
    ensures r.Success? ==>
      exists i :: 0 <= i < |cands| && cands[i] == r && forall j :: 0 <= j < i ==> cands[j].Failure?
    ensures r.Failure? ==> r == cands[|cands| - 1]
  {
    var n := Tried(cands);
    assert cands[n - 1].Failure? ==> forall i :: 0 <= i < |cands| ==> cands[i].Failure?;
    cands[n - 1]
  }

  /** Lines 33-39 as written: keep `core`'s result unless it is an error,
      in which case the result is whatever `pal` returns. */
  function Select<T>(core: Result<T>, pal: Result<T>): (r: Result<T>)
    ensures core.Success? ==> r == core
    ensures r.Failure? <==> core.Failure? && pal.Failure?
    ensures r.Failure? ==> r.error == pal.error
  {
    if core.Failure? then pal else core
  }

  /** The two-backend code follows the priority rule over `[core, pal]`. */
  lemma SelectIsPriorityWalk<T>(core: Result<T>, pal: Result<T>)
    ensures Select(core, pal) == FirstAccepted([core, pal])
  {
  }

  /** Which backends' `StartInitialization` the selection calls, in order:
      `pal` is attempted exactly when `core` declines. */
  function Attempted<T>(core: Result<T>, pal: Result<T>): (ks: seq<BackendKind>)
    ensures ks == Priority[..Tried([core, pal])]
    ensures 0 < |ks| && ks[0] == Core
    ensures Pal in ks <==> core.Failure?
  {
    if core.Failure? then [Core, Pal] else [Core]
  }
}
