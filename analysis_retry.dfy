/** `fetchWithRetry(url, options, retries, delay)`: the transport is an
    oracle that answers the `k`-th call with an outcome, and the waits between
    attempts are recorded instead of slept. */
module Retry {
  import opened JsValue

  /** What one `fetch` call does: resolve with a status, or throw. */
  datatype Outcome = Response(status: int) | Failure(reason: string)

  /** The error an attempt leaves in `lastError`. */
  datatype Error =
    | AuthExpired          // the `Error('认证已过期，请重新登录')` thrown for a 401
    | Transport(reason: string)

  /** How the call ends: the response is returned, or `lastError` is thrown
      (`undefined` when no attempt was made). */
  datatype FetchResult = Returned(status: int) | Thrown(error: Option<Error>)

  const Unauthorized: int := 401
  /** The defaults of `fetchWithRetry`'s `retries` and `delay` parameters. */
  const DefaultRetries: int := 3
  const DefaultDelay: int := 1000
  const NotFound: int := 404

  /** An attempt that ends in the `catch` block. */
  predicate Retried(o: Outcome) {
    o.Failure? || o.status == Unauthorized
  }

  function ErrorOf(o: Outcome): Error
    requires Retried(o)
  {
    if o.Failure? then Transport(o.reason) else AuthExpired
  }

  /** The first of the calls `0 .. n-1` whose outcome is returned. */
  function FirstReturned(transport: nat -> Outcome, n: int): (r: Option<nat>)
    ensures r.Some? ==> r.value < n && !Retried(transport(r.value))
    ensures r.Some? ==> forall k :: 0 <= k < r.value ==> Retried(transport(k))
    ensures r.None? ==> forall k :: 0 <= k < n ==> Retried(transport(k))
    decreases if n > 0 then n else 0
  {
    if n <= 0 then None
    else
      var prev := FirstReturned(transport, n - 1);
      if prev.Some? then prev
      else if Retried(transport(n - 1)) then None
      else Some(n - 1)
  }

  function Pow2(k: nat): nat {
    if k == 0 then 1 else 2 * Pow2(k - 1)
  }

  /** The waits after the first `k` failed attempts: `delay`, `2*delay`, ... */
  function Waits(delay: int, k: nat): (w: seq<int>)
    ensures |w| == k
    ensures forall j :: 0 <= j < k ==> w[j] == delay * Pow2(j)
  {
    seq(k, j requires 0 <= j < k => delay * Pow2(j))
  }

  /** With the defaults, a call that keeps failing waits one second, then
      two, between its three attempts. */
  lemma DefaultWaits()
    ensures Waits(DefaultDelay, DefaultRetries - 1) == [1000, 2000]
  {
    assert Pow2(1) == 2;
  }

  /** The retry loop. `calls` is the number of transport calls made; the
      result is the first response other than 401 within `retries` calls, or
      the error of the last attempt; a wait follows every failed attempt but
      the last one, each twice the one before. The source's defaults are
      `retries = 3` and `delay = 1000` milliseconds (see `DefaultRetries`). */
  method FetchWithRetry(transport: nat -> Outcome, retries: int, delay: int)
    returns (result: FetchResult, calls: nat, waits: seq<int>)
    ensures FirstReturned(transport, retries).Some? ==>
      var k := FirstReturned(transport, retries).value;
      result == Returned(transport(k).status) && calls == k + 1 && waits == Waits(delay, k)
    ensures FirstReturned(transport, retries).None? ==>
      && calls == (if retries > 0 then retries else 0)
      && result == Thrown(if retries > 0 then Some(ErrorOf(transport(retries - 1))) else None)
      && waits == Waits(delay, if retries > 0 then retries - 1 else 0)
    ensures result.Returned? ==> result.status != Unauthorized
    ensures calls <= (if retries > 0 then retries else 0)
  {
    var lastError: Option<Error> := None;
    var wait := delay;
    waits := [];
    calls := 0;
    var i := 0;
    while i < retries
      invariant 0 <= i <= (if retries > 0 then retries else 0) && calls == i
      invariant FirstReturned(transport, i).None?
      invariant i == 0 ==> lastError == None
      invariant i > 0 ==> Retried(transport(i - 1)) && lastError == Some(ErrorOf(transport(i - 1)))
      invariant waits == Waits(delay, if i == retries && i > 0 then i - 1 else i)
      invariant wait == delay * Pow2(|waits|)
      decreases retries - i
    {
      var response := transport(i);
      calls := calls + 1;
      if !Retried(response) {
        FirstReturnedFrom(transport, retries, i);
      }
      if response.Response? && response.status == NotFound {
        return Returned(response.status), calls, waits;
      }
      if response.Response? && response.status != Unauthorized {
        return Returned(response.status), calls, waits;
      }
      lastError := Some(ErrorOf(response));
      if i < retries - 1 {
        WaitsStep(delay, i);
        waits := waits + [wait];
        wait := wait * 2;
      }
      i := i + 1;
    }
    result := Thrown(lastError);
  }

  /** A 404 (or any status other than 401) on the first call ends the loop
      at once. */
  lemma FirstResponseReturned(transport: nat -> Outcome, retries: int)
    requires retries > 0 && transport(0).Response? && transport(0).status != Unauthorized
    ensures FirstReturned(transport, retries) == Some(0)
  {
    FirstReturnedFrom(transport, retries, 0);
  }

  /** The first returnable call is found whatever the bound beyond it. */
  lemma {:induction false} FirstReturnedFrom(transport: nat -> Outcome, n: int, k: nat)
    requires k < n && !Retried(transport(k))
    requires forall j :: 0 <= j < k ==> Retried(transport(j))
    ensures FirstReturned(transport, n) == Some(k)
    decreases n
  {
    if n - 1 > k {
      FirstReturnedFrom(transport, n - 1, k);
    } else {
      assert FirstReturned(transport, n - 1).None?;
    }
  }

  /** One more failed attempt adds the next wait, twice the one before. */
  lemma WaitsStep(delay: int, k: nat)
    ensures Waits(delay, k + 1) == Waits(delay, k) + [delay * Pow2(k)]
    ensures delay * Pow2(k + 1) == (delay * Pow2(k)) * 2
  {
    assert Waits(delay, k + 1)[..k] == Waits(delay, k);
  }

  /** Every wait is twice the previous one. */
  lemma WaitsDouble(delay: int, k: nat, j: nat)
    requires j + 1 < k
    ensures Waits(delay, k)[j + 1] == 2 * Waits(delay, k)[j]
  {
    assert Pow2(j + 1) == 2 * Pow2(j);
  }

  /** A 401 answer is caught by the loop's own `catch` and retried: after a
      401 on the first call and a 200 on the second, the 200 is returned,
      whereas the loop stopping at the first answer would have ended on
      the 401. */
  lemma UnauthorizedRetried(transport: nat -> Outcome)
    requires transport(0) == Response(Unauthorized) && transport(1) == Response(200)
    ensures FirstReturned(transport, 3) == Some(1)
    ensures FirstAnswered(transport, 3) == Some(0)
  {
    FirstReturnedFrom(transport, 3, 1);
    FirstAnsweredFrom(transport, 3, 0);
  }

  /** The first of the calls `0 .. n-1` that answers with a status. */
  function FirstAnswered(transport: nat -> Outcome, n: int): (r: Option<nat>)
    ensures r.Some? ==> r.value < n && transport(r.value).Response?
    ensures r.Some? ==> forall k :: 0 <= k < r.value ==> transport(k).Failure?
    ensures r.None? ==> forall k :: 0 <= k < n ==> transport(k).Failure?
    decreases if n > 0 then n else 0
  {
    if n <= 0 then None
    else
      var prev := FirstAnswered(transport, n - 1);
      if prev.Some? then prev
      else if transport(n - 1).Failure? then None
      else Some(n - 1)
  }

  lemma {:induction false} FirstAnsweredFrom(transport: nat -> Outcome, n: int, k: nat)
    requires k < n && transport(k).Response?
    requires forall j :: 0 <= j < k ==> transport(j).Failure?
    ensures FirstAnswered(transport, n) == Some(k)
    decreases n
  {
    if n - 1 > k {
      FirstAnsweredFrom(transport, n - 1, k);
    } else {
      assert FirstAnswered(transport, n - 1).None?;
    }
  }

  /** The loop as its comments describe it: a 401 ends the call with the
      authentication error at once, and only thrown transport errors are
      retried. */
  method FetchStoppingOnUnauthorized(transport: nat -> Outcome, retries: int, delay: int)
    returns (result: FetchResult, calls: nat, waits: seq<int>)
    ensures FirstAnswered(transport, retries).Some? ==>
      var k := FirstAnswered(transport, retries).value;
      && calls == k + 1 && waits == Waits(delay, k)
      && result == (if transport(k).status == Unauthorized then Thrown(Some(AuthExpired))
                    else Returned(transport(k).status))
    ensures FirstAnswered(transport, retries).None? ==>
      && calls == (if retries > 0 then retries else 0)
      && result == Thrown(if retries > 0 then Some(ErrorOf(transport(retries - 1))) else None)
      && waits == Waits(delay, if retries > 0 then retries - 1 else 0)
    ensures forall k :: 0 <= k < calls - 1 ==> transport(k).Failure?
  {
    var lastError: Option<Error> := None;
    var wait := delay;
    waits := [];
    calls := 0;
    var i := 0;
    while i < retries
      invariant 0 <= i <= (if retries > 0 then retries else 0) && calls == i
      invariant FirstAnswered(transport, i).None?
      invariant i == 0 ==> lastError == None
      invariant i > 0 ==> transport(i - 1).Failure? && lastError == Some(ErrorOf(transport(i - 1)))
      invariant waits == Waits(delay, if i == retries && i > 0 then i - 1 else i)
      invariant wait == delay * Pow2(|waits|)
      decreases retries - i
    {
      var response := transport(i);
      calls := calls + 1;
      if response.Response? {
        FirstAnsweredFrom(transport, retries, i);
        if response.status == Unauthorized {
          return Thrown(Some(AuthExpired)), calls, waits;
        }
        return Returned(response.status), calls, waits;
      }
      lastError := Some(ErrorOf(response));
      if i < retries - 1 {
        WaitsStep(delay, i);
        waits := waits + [wait];
        wait := wait * 2;
      }
      i := i + 1;
    }
    result := Thrown(lastError);
  }
}
