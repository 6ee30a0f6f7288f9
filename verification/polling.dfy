/**
 * Waiting for the backend: the runtime-state poll and the backend-check
 * poll that steps of a plan run, and the synchronous status wait of the
 * legacy backend.
 *
 * A poll is a sequence of attempts. `observe(k)` is what attempt `k` sees
 * (attempt 0 is the first run, attempt k the k-th retry). A task allowed
 * `maxRetries` retries makes at most `maxRetries + 1` attempts; when the
 * last one still asks for a retry, the retries are exhausted and the task
 * fails.
 */
module Polling {
  import opened Wrappers

  /** The first attempt in `from .. from + count - 1` at which `p` holds. */
  function FirstHit(p: nat -> bool, from: nat, count: nat): (r: Option<nat>)
    ensures r.Some? ==> from <= r.value < from + count && p(r.value)
                        && forall j :: from <= j < r.value ==> !p(j)
    ensures r.None? ==> forall j :: from <= j < from + count ==> !p(j)
    decreases count
  {
    if count == 0 then None
    else if p(from) then Some(from)
    else FirstHit(p, from + 1, count - 1)
  }

  const RuntimeStateMaxRetries: nat := 300
  const BackendCheckMaxRetries: nat := 60

  datatype PollOutcome = Finished(attempt: nat) | Raised(attempt: nat) | RetriesExhausted

  /** The runtime state has reached the success or the erred state. */
  function Settled(observe: nat -> string, success: string, erred: string): nat -> bool
  {
    (k: nat) => observe(k) == success || observe(k) == erred
  }

  /**
   * `PollRuntimeStateTask`: retry while the runtime state is neither the
   * success nor the erred state; raise when it is the erred state (checked
   * first), finish when it is the success state.
   */
  function PollRuntimeState(observe: nat -> string, success: string, erred: string, maxRetries: nat)
    : (r: PollOutcome)
    ensures r.Finished? ==> && r.attempt <= maxRetries
                            && observe(r.attempt) == success && observe(r.attempt) != erred
                            && forall j :: 0 <= j < r.attempt ==> observe(j) != success && observe(j) != erred
    ensures r.Raised? ==> && r.attempt <= maxRetries && observe(r.attempt) == erred
                          && forall j :: 0 <= j < r.attempt ==> observe(j) != success && observe(j) != erred
    ensures r.RetriesExhausted? <==> forall j :: 0 <= j <= maxRetries ==> observe(j) != success && observe(j) != erred
  {
    var settled := Settled(observe, success, erred);
    assert forall j: nat :: settled(j) <==> observe(j) == success || observe(j) == erred;
    match FirstHit(settled, 0, maxRetries + 1)
    case None => RetriesExhausted
    case Some(k) => if observe(k) == erred then Raised(k) else Finished(k)
  }

  /** A poll whose success and erred states coincide can never finish. */
  lemma SameStatesNeverFinish(observe: nat -> string, state: string, maxRetries: nat)
    ensures !PollRuntimeState(observe, state, state, maxRetries).Finished?
  {
  }

  /** A resource that is already in the success state is returned on the first attempt. */
  lemma AlreadySettledFinishesAtOnce(observe: nat -> string, success: string, erred: string, maxRetries: nat)
    requires observe(0) == success && success != erred
    ensures PollRuntimeState(observe, success, erred, maxRetries) == Finished(0)
  {
  }

  /**
   * `PollBackendCheckTask`: retry until the check reports true, which is
   * where the poll ends; the attempt that succeeded, or none.
   */
  function PollBackendCheck(check: nat -> bool, maxRetries: nat): (r: Option<nat>)
    ensures r.Some? ==> r.value <= maxRetries && check(r.value) && forall j :: 0 <= j < r.value ==> !check(j)
    ensures r.None? <==> forall j :: 0 <= j <= maxRetries ==> !check(j)
  {
    FirstHit(check, 0, maxRetries + 1)
  }

  /** The check runs at most 61 times. */
  lemma BackendCheckBounded(check: nat -> bool)
    ensures var r := PollBackendCheck(check, BackendCheckMaxRetries);
            r.Some? ==> r.value < 61
  {
  }

  /** Neither the complete nor the error status has been seen before attempt `k`. */
  predicate Undecided(observe: nat -> string, complete: string, error: Option<string>, k: nat)
  {
    forall j :: 0 <= j < k ==> observe(j) != complete && (error.None? || observe(j) != error.value)
  }

  /**
   * `_wait_for_object_status`: up to `retries` reads of the object's status;
   * true as soon as the complete status is read, false as soon as the error
   * status is read (when there is one), false when the reads run out.
   */
  method WaitForObjectStatus(observe: nat -> string, complete: string, error: Option<string>, retries: nat)
    returns (ok: bool)
    ensures ok <==> exists k :: 0 <= k < retries && observe(k) == complete && Undecided(observe, complete, error, k)
  {
    var k: nat := 0;
    while k < retries
      invariant k <= retries
      invariant Undecided(observe, complete, error, k)
    {
      var status := observe(k);
      if status == complete {
        return true;
      }
      if error.Some? && status == error.value {
        assert forall m :: k < m < retries ==> !Undecided(observe, complete, error, m);
        return false;
      }
      k := k + 1;
    }
    return false;
  }
}
