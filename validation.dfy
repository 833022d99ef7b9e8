/** Validation by an ordered list of checks, the shape both Van Genuchten
    constructors share: each check is a guard that rejects the input and the
    error it rejects it with, and the first guard that fires decides the
    error. This is the reference the constructors are proved against. */
module Validation {

  /** Rust's `Result<T, E>`. */
  datatype Result<+T, +E> = Ok(value: T) | Err(error: E)

  /** One check: whether it rejects the input, and with which error. */
  datatype Check<+E> = Check(fails: bool, error: E)

  /** True when every check in `checks` lets the input through. */
  predicate AllPass<E>(checks: seq<Check<E>>) {
    forall i :: 0 <= i < |checks| ==> !checks[i].fails
  }

  /** The position of the first check that fails, or `|checks|` when none does. */
  function FirstFailingIndex<E>(checks: seq<Check<E>>): (k: nat)
    ensures k <= |checks|
    ensures forall j :: 0 <= j < k ==> !checks[j].fails
    ensures k < |checks| ==> checks[k].fails
  {
    if |checks| == 0 then 0
    else if checks[0].fails then 0
    else 1 + FirstFailingIndex(checks[1..])
  }

  /** The outcome of running `checks` in order: the error of the first check
      that fails, or `Ok(accepted)` when all of them pass. */
  function Decide<T, E>(checks: seq<Check<E>>, accepted: T): (r: Result<T, E>)
    ensures r.Ok? <==> AllPass(checks)
    ensures r.Ok? ==> r.value == accepted
  {
    var k := FirstFailingIndex(checks);
    if k < |checks| then Err(checks[k].error) else Ok(accepted)
  }

  /** The first failing check is determined by the checks alone: any position
      whose predecessors pass and which fails (or is the end) is it. */
  lemma FirstFailingIndexUnique<E>(checks: seq<Check<E>>, k: nat)
    requires k <= |checks|
    requires forall j :: 0 <= j < k ==> !checks[j].fails
    requires k < |checks| ==> checks[k].fails
    ensures FirstFailingIndex(checks) == k
  {
  }

  /** Decide rejects with the error of check `k` whenever every check before
      `k` passes and check `k` fails, whatever the later checks say. */
  lemma DecideAt<T, E>(checks: seq<Check<E>>, accepted: T, k: nat)
    requires k < |checks|
    requires forall j :: 0 <= j < k ==> !checks[j].fails
    requires checks[k].fails
    ensures Decide(checks, accepted) == Err(checks[k].error)
  {
    FirstFailingIndexUnique(checks, k);
  }
}
