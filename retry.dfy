/**
 * The adapters' shared base: `retryWithBackoff` and `generateHash`.
 * The wrapped operation is given as `fn`, where `fn(k)` is what its (k+1)-th invocation
 * yields; `jitter(k)` is the random jitter drawn before the (k+1)-th retry.
 */
module Retry {
  import opened Wrappers

  const BaseDelay: nat := 1000
  const MaxRetries: nat := 3

  /** The outcome of a retried call: what it returns or rethrows, how often `fn` ran, and the waits in between. */
  datatype Trace<T> = Trace(result: Result<T>, calls: nat, delays: seq<real>)

  function Pow2(k: nat): (r: nat)
    ensures r >= 1
  {
    if k == 0 then 1 else 2 * Pow2(k - 1)
  }

  /** The wait before retry number `k + 1`. */
  function BackoffDelay(k: nat, jitter: real): real {
    (BaseDelay * Pow2(k)) as real + jitter
  }

  /** `retryWithBackoff(fn, attempt)`. */
  function RetryFrom<T>(fn: nat -> Result<T>, jitter: nat -> real, attempt: nat): (t: Trace<T>)
    requires attempt <= MaxRetries
    ensures attempt < t.calls <= MaxRetries + 1
    ensures t.result == fn(t.calls - 1)
    ensures forall k :: attempt <= k < t.calls - 1 ==> fn(k).Err?
    ensures t.calls <= MaxRetries ==> fn(t.calls - 1).Ok?
    ensures |t.delays| == t.calls - 1 - attempt
    ensures forall k :: 0 <= k < |t.delays| ==> t.delays[k] == BackoffDelay(attempt + k, jitter(attempt + k))
    decreases MaxRetries - attempt
  {
    match fn(attempt)
    case Ok(v) => Trace(Ok(v), attempt + 1, [])
    case Err(e) =>
      if attempt >= MaxRetries then Trace(Err(e), attempt + 1, [])
      else
        var rest := RetryFrom(fn, jitter, attempt + 1);
        Trace(rest.result, rest.calls, [BackoffDelay(attempt, jitter(attempt))] + rest.delays)
  }

  /** `retryWithBackoff(fn)`: at most four invocations; the first success wins, else the fourth error is rethrown. */
  function RetryWithBackoff<T>(fn: nat -> Result<T>, jitter: nat -> real): (t: Trace<T>)
    ensures 1 <= t.calls <= MaxRetries + 1
    ensures t.result.Ok? <==> exists k :: 0 <= k <= MaxRetries && fn(k).Ok?
    ensures t.result.Ok? ==> t.result == fn(t.calls - 1) && forall k :: 0 <= k < t.calls - 1 ==> fn(k).Err?
    ensures t.result.Err? ==> t.calls == MaxRetries + 1 && t.result == fn(MaxRetries)
    ensures |t.delays| == t.calls - 1
    ensures forall k :: 0 <= k < |t.delays| ==> t.delays[k] == BackoffDelay(k, jitter(k))
  {
    var t := RetryFrom(fn, jitter, 0);
    assert t.result.Err? ==> forall k :: 0 <= k <= MaxRetries ==> fn(k).Err?;
    t
  }

  /** Each wait is 1000·2^k plus a jitter in [0, 1000), so the waits grow strictly. */
  lemma {:induction false} DelaysBounded<T>(fn: nat -> Result<T>, jitter: nat -> real)
    requires forall k :: 0.0 <= jitter(k) < 1000.0
    ensures var t := RetryWithBackoff(fn, jitter);
      forall k :: 0 <= k < |t.delays| ==>
        (BaseDelay * Pow2(k)) as real <= t.delays[k] < (BaseDelay * Pow2(k)) as real + 1000.0
    ensures var t := RetryWithBackoff(fn, jitter);
      forall k :: 0 <= k < |t.delays| - 1 ==> t.delays[k] < t.delays[k + 1]
  {
    var t := RetryWithBackoff(fn, jitter);
    assert t == RetryFrom(fn, jitter, 0);
    forall k | 0 <= k < |t.delays| - 1
      ensures t.delays[k] < t.delays[k + 1]
    {
      assert Pow2(k + 1) == 2 * Pow2(k);
      assert t.delays[k] < (BaseDelay * Pow2(k)) as real + 1000.0;
      assert (BaseDelay * Pow2(k + 1)) as real <= t.delays[k + 1];
    }
  }

  /** When every attempt fails, the three waits add up to at least 7000 ms and less than 10000 ms. */
  lemma {:induction false} TotalWaitWhenAllFail<T>(fn: nat -> Result<T>, jitter: nat -> real)
    requires forall k :: 0.0 <= jitter(k) < 1000.0
    requires forall k :: 0 <= k <= MaxRetries ==> fn(k).Err?
    ensures var t := RetryWithBackoff(fn, jitter);
      |t.delays| == 3 && 7000.0 <= t.delays[0] + t.delays[1] + t.delays[2] < 10000.0
  {
    var t := RetryWithBackoff(fn, jitter);
    assert t == RetryFrom(fn, jitter, 0);
    assert Pow2(0) == 1 && Pow2(1) == 2 && Pow2(2) == 4;
  }

  /** `generateHash(url, title)`: the digest of `url|title`; `sha256` is a parameter of the model. */
  function GenerateHash(sha256: string -> string, url: string, title: string): (h: string)
    ensures h == sha256(url + "|" + title)
  {
    sha256(url + "|" + title)
  }

  /** The digest sees only the joined text, so a `|` inside a field makes distinct pairs collide. */
  lemma {:induction false} GenerateHashSeparatorCollision(sha256: string -> string)
    ensures GenerateHash(sha256, "a|b", "c") == GenerateHash(sha256, "a", "b|c")
  {
    assert "a|b" + "|" + "c" == "a" + "|" + "b|c";
  }
}
