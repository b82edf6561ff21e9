// Balena Cloud: the API client's retry loop, environment-variable upsert and
// device query choice (api.py).

module BalenaApi {
  import opened Common

  const MaxRetries := 3
  /** Seconds before the first retry. */
  const RetryDelay := 1.0

  // ---- retry -----------------------------------------------------------------------

  /**
   * What one call of the wrapped coroutine did: returned a value, raised a
   * request or SDK error (which is retried), or raised anything else.
   */
  datatype Attempt<T> = Ok(value: T) | Retryable(err: string) | Fatal(err: string)

  /**
   * How the wrapper ends: with the call's value, with the API error chained
   * from the last retryable error, with an error that propagates unretried,
   * or, when no attempt is made at all, with None.
   */
  datatype Outcome<T> = Returned(value: T) | FailedAfterRetries(last: string) | Propagated(err: string) | NoAttempt

  function Pow2(k: nat): (p: nat)
    ensures p >= 1
  {
    if k == 0 then 1 else 2 * Pow2(k - 1)
  }

  /** The outcome from attempt `k` on. */
  function OutcomeFrom<T>(k: nat, maxRetries: nat, call: nat -> Attempt<T>): Outcome<T>
    requires k <= maxRetries
    decreases maxRetries - k
  {
    match call(k)
    case Ok(v) => Returned(v)
    case Fatal(e) => Propagated(e)
    case Retryable(e) => if k < maxRetries then OutcomeFrom(k + 1, maxRetries, call) else FailedAfterRetries(e)
  }

  /** The waits taken from attempt `k` on: `delay * 2^k` after a retryable failure that is not the last attempt. */
  function WaitsFrom<T>(k: nat, maxRetries: nat, delay: real, call: nat -> Attempt<T>): seq<real>
    requires k <= maxRetries
    decreases maxRetries - k
  {
    if call(k).Retryable? && k < maxRetries then [delay * Pow2(k) as real] + WaitsFrom(k + 1, maxRetries, delay, call)
    else []
  }

  function RetryOutcome<T>(maxRetries: int, call: nat -> Attempt<T>): Outcome<T>
  {
    if maxRetries < 0 then NoAttempt else OutcomeFrom(0, maxRetries, call)
  }

  function RetryWaits<T>(maxRetries: int, delay: real, call: nat -> Attempt<T>): seq<real>
  {
    if maxRetries < 0 then [] else WaitsFrom(0, maxRetries, delay, call)
  }

  /** `async_retry`'s wrapper: the attempt loop with its doubling back-off. */
  method Retry<T>(maxRetries: int, delay: real, call: nat -> Attempt<T>)
    returns (outcome: Outcome<T>, waits: seq<real>, attempts: nat)
    ensures outcome == RetryOutcome(maxRetries, call)
    ensures waits == RetryWaits(maxRetries, delay, call)
    ensures attempts <= if maxRetries < 0 then 0 else maxRetries + 1
    ensures outcome.FailedAfterRetries? ==> attempts == maxRetries + 1
  {
    waits := [];
    attempts := 0;
    if maxRetries < 0 {
      return NoAttempt, waits, attempts;
    }
    var last := "";
    var attempt := 0;
    while attempt < maxRetries + 1
      invariant 0 <= attempt <= maxRetries + 1
      invariant attempts == attempt
      invariant 0 < attempt ==> call(attempt - 1).Retryable? && last == call(attempt - 1).err
      invariant attempt <= maxRetries ==>
                  RetryOutcome(maxRetries, call) == OutcomeFrom(attempt, maxRetries, call) &&
                  RetryWaits(maxRetries, delay, call) == waits + WaitsFrom(attempt, maxRetries, delay, call)
      invariant attempt == maxRetries + 1 ==>
                  RetryOutcome(maxRetries, call) == FailedAfterRetries(last) &&
                  RetryWaits(maxRetries, delay, call) == waits
    {
      attempts := attempts + 1;
      var result := call(attempt);
      if result.Ok? {
        return Returned(result.value), waits, attempts;
      }
      if result.Fatal? {
        return Propagated(result.err), waits, attempts;
      }
      last := result.err;
      if attempt < maxRetries {
        var wait := delay * Pow2(attempt) as real;
        assert OutcomeFrom(attempt, maxRetries, call) == OutcomeFrom(attempt + 1, maxRetries, call);
        assert WaitsFrom(attempt, maxRetries, delay, call) == [wait] + WaitsFrom(attempt + 1, maxRetries, delay, call);
        assert waits + [wait] + WaitsFrom(attempt + 1, maxRetries, delay, call)
            == waits + ([wait] + WaitsFrom(attempt + 1, maxRetries, delay, call));
        waits := waits + [wait];
      } else {
        assert WaitsFrom(attempt, maxRetries, delay, call) == [];
      }
      attempt := attempt + 1;
    }
    return FailedAfterRetries(last), waits, attempts;
  }

  /** The first success is returned at once, after one wait per earlier failure. */
  lemma {:induction false} FirstSuccessWins<T>(k: nat, j: nat, maxRetries: nat, delay: real, call: nat -> Attempt<T>)
    requires k <= j <= maxRetries && call(j).Ok?
    requires forall i :: k <= i < j ==> call(i).Retryable?
    ensures OutcomeFrom(k, maxRetries, call) == Returned(call(j).value)
    ensures |WaitsFrom(k, maxRetries, delay, call)| == j - k
    ensures forall i :: 0 <= i < j - k ==> WaitsFrom(k, maxRetries, delay, call)[i] == delay * Pow2(k + i) as real
    decreases j - k
  {
    if k < j {
      FirstSuccessWins(k + 1, j, maxRetries, delay, call);
    }
  }

  /**
   * When every attempt raises a retryable error there are `maxRetries + 1`
   * attempts, `maxRetries` doubling waits (none after the last), and the
   * error is chained from the last one.
   */
  lemma {:induction false} AllAttemptsFail<T>(k: nat, maxRetries: nat, delay: real, call: nat -> Attempt<T>)
    requires k <= maxRetries
    requires forall i :: k <= i <= maxRetries ==> call(i).Retryable?
    ensures OutcomeFrom(k, maxRetries, call) == FailedAfterRetries(call(maxRetries).err)
    ensures |WaitsFrom(k, maxRetries, delay, call)| == maxRetries - k
    ensures forall i :: 0 <= i < maxRetries - k ==> WaitsFrom(k, maxRetries, delay, call)[i] == delay * Pow2(k + i) as real
    decreases maxRetries - k
  {
    if k < maxRetries {
      AllAttemptsFail(k + 1, maxRetries, delay, call);
    }
  }

  /** An error that is not retryable ends the loop on the attempt that raised it. */
  lemma FatalIsNotRetried<T>(maxRetries: nat, delay: real, call: nat -> Attempt<T>)
    requires call(0).Fatal?
    ensures RetryOutcome(maxRetries, call) == Propagated(call(0).err)
    ensures RetryWaits(maxRetries, delay, call) == []
  {
  }

  /** With the default settings: four attempts, waiting 1, 2 and 4 seconds. */
  lemma DefaultBackOff<T>(call: nat -> Attempt<T>)
    requires forall i: nat :: i <= MaxRetries ==> call(i).Retryable?
    ensures RetryWaits(MaxRetries, RetryDelay, call) == [1.0, 2.0, 4.0]
    ensures RetryOutcome(MaxRetries, call) == FailedAfterRetries(call(3).err)
  {
    AllAttemptsFail(0, MaxRetries, RetryDelay, call);
  }

  // ---- the decorated methods' own handlers -------------------------------------------

  /**
   * What a decorated method's own `except` clauses do with whatever its SDK
   * call raised: raise a `BalenaCloudAPIError` (or its authentication
   * subclass) in its place, or log it and return a default value. Every
   * decorated method ends in `except Exception`, so nothing escapes them.
   */
  datatype CatchAll<T> = Reraise(err: string) | ReturnDefault(value: T)

  /**
   * One attempt of a decorated method as written. The errors it raises are
   * Home Assistant errors, neither request nor SDK errors, so the wrapper
   * sees them as not retryable.
   */
  function Handled<T>(raw: Attempt<T>, handler: CatchAll<T>): (a: Attempt<T>)
    ensures !a.Retryable?
    ensures raw.Ok? ==> a == raw
    ensures !raw.Ok? ==> (a.Ok? <==> handler.ReturnDefault?)
  {
    if raw.Ok? then raw
    else
      match handler
      case Reraise(e) => Fatal(e)
      case ReturnDefault(v) => Ok(v)
  }

  /**
   * As written, the wrapper never retries a decorated method: whatever the SDK
   * call raises, the first attempt returns or raises a Home Assistant error,
   * which the wrapper returns or lets through without any wait.
   */
  lemma HandledIsNeverRetried<T>(maxRetries: nat, delay: real, raw: nat -> Attempt<T>, handler: nat -> CatchAll<T>)
    ensures var call := (k: nat) => Handled(raw(k), handler(k));
            RetryWaits(maxRetries, delay, call) == [] &&
            RetryOutcome(maxRetries, call) == (if call(0).Ok? then Returned(call(0).value) else Propagated(call(0).err))
  {
    var call := (k: nat) => Handled(raw(k), handler(k));
    assert call(0) == Handled(raw(0), handler(0));
    assert WaitsFrom(0, maxRetries, delay, call) == [];
  }

  /**
   * A decorated method whose handlers let request and SDK errors through to
   * the wrapper, as the decorator expects, and handle everything else as
   * before.
   */
  function PassingSdkErrors<T>(raw: Attempt<T>, handler: CatchAll<T>): (a: Attempt<T>)
    ensures a.Retryable? <==> raw.Retryable?
    ensures raw.Retryable? ==> a == raw
    ensures !raw.Retryable? ==> a == Handled(raw, handler)
  {
    if raw.Retryable? then raw else Handled(raw, handler)
  }

  /**
   * With request and SDK errors let through, an SDK call that keeps raising
   * them is tried four times, waiting 1, 2 and 4 seconds, and fails with the
   * last error; as written it fails at once with the handler's error.
   */
  lemma {:induction false} PassedSdkErrorsAreRetried<T>(raw: nat -> Attempt<T>, handler: nat -> CatchAll<T>)
    requires forall i: nat :: i <= MaxRetries ==> raw(i).Retryable?
    requires handler(0).Reraise?
    ensures var call := (k: nat) => PassingSdkErrors(raw(k), handler(k));
            RetryWaits(MaxRetries, RetryDelay, call) == [1.0, 2.0, 4.0] &&
            RetryOutcome(MaxRetries, call) == FailedAfterRetries(raw(3).err)
    ensures var asWritten := (k: nat) => Handled(raw(k), handler(k));
            RetryWaits(MaxRetries, RetryDelay, asWritten) == [] &&
            RetryOutcome(MaxRetries, asWritten) == Propagated(handler(0).err)
  {
    var call := (k: nat) => PassingSdkErrors(raw(k), handler(k));
    DefaultBackOff(call);
    HandledIsNeverRetried(MaxRetries, RetryDelay, raw, handler);
  }

  // ---- environment variables ---------------------------------------------------------

  /** An existing variable as listed by the API. */
  datatype EnvVar = EnvVar(name: string, id: int)

  /** One write: an update of an existing variable by id, or a creation by name. */
  datatype EnvOp = Update(id: int, value: string) | Create(name: string, value: string)

  /** `{var["name"]: var ...}`: a later variable with the same name wins. */
  function ExistingIds(existing: seq<EnvVar>): (m: map<string, int>)
    ensures forall n :: n in m <==> exists i :: 0 <= i < |existing| && existing[i].name == n
  {
    if |existing| == 0 then map[]
    else
      var rest := ExistingIds(existing[..|existing| - 1]);
      var v := existing[|existing| - 1];
      assert forall i :: 0 <= i < |existing| - 1 ==> existing[..|existing| - 1][i] == existing[i];
      rest[v.name := v.id]
  }

  function OpFor(ids: map<string, int>, name: string, value: string): EnvOp
  {
    if name in ids then Update(ids[name], value) else Create(name, value)
  }

  function OpsFor(ids: map<string, int>, variables: seq<(string, string)>): (ops: seq<EnvOp>)
    ensures |ops| == |variables|
    ensures forall i :: 0 <= i < |ops| ==> ops[i] == OpFor(ids, variables[i].0, variables[i].1)
  {
    seq(|variables|, i requires 0 <= i < |variables| => OpFor(ids, variables[i].0, variables[i].1))
  }

  /**
   * `async_update_environment_variables`: a variable already present is
   * updated by its id, any other is created. `opFails` says which writes
   * raise; `existing` is None when listing the variables raised.
   */
  method UpsertEnvironment(existing: Option<seq<EnvVar>>, variables: seq<(string, string)>, opFails: EnvOp -> bool)
    returns (success: bool, ops: seq<EnvOp>)
    ensures existing.None? ==> !success && ops == []
    ensures existing.Some? ==> ops == OpsFor(ExistingIds(existing.value), variables)
    ensures success <==> existing.Some? && forall i :: 0 <= i < |ops| ==> !opFails(ops[i])
  {
    if existing.None? {
      return false, [];
    }
    var ids := ExistingIds(existing.value);
    success := true;
    ops := [];
    var i := 0;
    while i < |variables|
      invariant 0 <= i <= |variables|
      invariant |ops| == i
      invariant forall k :: 0 <= k < i ==> ops[k] == OpFor(ids, variables[k].0, variables[k].1)
      invariant success <==> forall k :: 0 <= k < i ==> !opFails(ops[k])
    {
      var (name, value) := variables[i];
      var op;
      if name in ids {
        op := Update(ids[name], value);
      } else {
        op := Create(name, value);
      }
      if opFails(op) {
        success := false;
      }
      ops := ops + [op];
      i := i + 1;
    }
  }

  /** A name already present is never created again, and a new name is never updated. */
  lemma UpsertCreatesOnlyNewNames(existing: seq<EnvVar>, variables: seq<(string, string)>, i: nat)
    requires i < |variables|
    ensures var op := OpsFor(ExistingIds(existing), variables)[i];
            (op.Create? <==> forall k :: 0 <= k < |existing| ==> existing[k].name != variables[i].0) &&
            (op.Update? ==> exists k :: 0 <= k < |existing| && existing[k].name == variables[i].0 && existing[k].id == op.id)
  {
    var ids := ExistingIds(existing);
    if variables[i].0 in ids {
      LastIdIsListed(existing, variables[i].0);
    }
  }

  lemma {:induction false} LastIdIsListed(existing: seq<EnvVar>, n: string)
    requires n in ExistingIds(existing)
    ensures exists k :: 0 <= k < |existing| && existing[k].name == n && existing[k].id == ExistingIds(existing)[n]
    decreases |existing|
  {
    var last := |existing| - 1;
    if existing[last].name != n {
      LastIdIsListed(existing[..last], n);
      var k :| 0 <= k < last && existing[..last][k].name == n && existing[..last][k].id == ExistingIds(existing[..last])[n];
      assert existing[k] == existing[..last][k];
    }
  }

  // ---- device query -------------------------------------------------------------------

  datatype DeviceQuery = ByApplication(fleetId: int) | AllDevices

  /** `async_get_devices`: by application exactly when the fleet id is truthy, so 0 means all. */
  function DevicesQuery(fleetId: Option<int>): (q: DeviceQuery)
    ensures q.ByApplication? <==> fleetId.Some? && fleetId.value != 0
    ensures q.ByApplication? ==> q.fleetId == fleetId.value
  {
    if fleetId.Some? && fleetId.value != 0 then ByApplication(fleetId.value) else AllDevices
  }
}
