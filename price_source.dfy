/**
 * The spot-price adapter: one ticker request per attempt, a bounded number of
 * attempts, and a pause between attempts whose length depends on how the
 * attempt failed (main.py:178-231). The network is replaced by `responses`,
 * which says how attempt number k (counted from 0) turns out, and the pauses
 * taken by `asyncio.sleep` are recorded in a list of seconds.
 */
module PriceSource {
  import opened Wrappers
  import Symbols

  /** How one request to the ticker endpoint ends. */
  datatype Response =
    | Ticker(last: real)  // status 200, code "0", a data row whose "last" parses
    | Malformed           // status 200, but code is not "0" or there is no data row
    | RateLimited         // status 429
    | HttpError           // any other status
    | Timeout             // the request timed out
    | ClientError         // any other exception, e.g. a connection failure or an unparsable price

  /** What a call returns (the price, or None), with the attempts made and the pauses taken. */
  datatype Fetch = Fetch(price: Option<real>, attempts: nat, sleeps: seq<nat>)

  const DefaultRetries: int := 3

  function Pow2(n: nat): (r: nat)
    ensures r >= 1
  {
    if n == 0 then 1 else 2 * Pow2(n - 1)
  }

  /**
   * The pause, in seconds, after failed attempt `k` when a further attempt
   * follows: 2^k after a rate limit, 1 after another status, a timeout or an
   * exception, and none at all after a 200 answer without a usable body.
   */
  function Pause(resp: Response, k: nat): seq<nat>
  {
    match resp
    case Ticker(_) => []
    case Malformed => []
    case RateLimited => [Pow2(k)]
    case HttpError => [1]
    case Timeout => [1]
    case ClientError => [1]
  }

  /** The outcome of the attempts from number `k` on, when `maxRetries` attempts are allowed in all. */
  function Attempts(responses: nat -> Response, maxRetries: int, k: nat): Fetch
    decreases maxRetries - k
  {
    if k >= maxRetries then Fetch(None, k, [])
    else match responses(k)
      case Ticker(p) => Fetch(Some(p), k + 1, [])
      case _ =>
        var rest := Attempts(responses, maxRetries, k + 1);
        var pause := if k < maxRetries - 1 then Pause(responses(k), k) else [];
        Fetch(rest.price, rest.attempts, pause + rest.sleeps)
  }

  /** `f` preceded by the pauses `pre`. */
  function After(pre: seq<nat>, f: Fetch): Fetch
  {
    Fetch(f.price, f.attempts, pre + f.sleeps)
  }

  lemma AfterAfter(a: seq<nat>, b: seq<nat>, f: Fetch)
    ensures After(a, After(b, f)) == After(a + b, f)
  {
    assert a + (b + f.sleeps) == (a + b) + f.sleeps;
  }

  function MaxInt(a: int, b: int): int { if a < b then b else a }

  /** `okx_get_price(symbol, max_retries)` */
  method FetchPrice(symbol: string, responses: nat -> Response, maxRetries: int)
    returns (instId: string, price: Option<real>, attempts: nat, sleeps: seq<nat>)
    ensures instId == Symbols.Instrument(symbol)
    ensures Fetch(price, attempts, sleeps) == Attempts(responses, maxRetries, 0)
  {
    instId := Symbols.Instrument(symbol);
    sleeps := [];
    var attempt: nat := 0;
    while attempt < maxRetries
      invariant attempt <= MaxInt(maxRetries, 0)
      invariant Attempts(responses, maxRetries, 0) == After(sleeps, Attempts(responses, maxRetries, attempt))
      decreases maxRetries - attempt
    {
      var resp := responses(attempt);
      if resp.Ticker? {
        price, attempts := Some(resp.last), attempt + 1;
        assert sleeps + [] == sleeps;
        return;
      }
      ghost var pause := if attempt < maxRetries - 1 then Pause(resp, attempt) else [];
      assert Attempts(responses, maxRetries, attempt) == After(pause, Attempts(responses, maxRetries, attempt + 1));
      ghost var before := sleeps;
      if attempt < maxRetries - 1 {
        match resp
        case RateLimited => sleeps := sleeps + [Pow2(attempt)];
        case HttpError => sleeps := sleeps + [1];
        case Timeout => sleeps := sleeps + [1];
        case ClientError => sleeps := sleeps + [1];
        case Malformed =>
      }
      assert sleeps == before + pause;
      AfterAfter(before, pause, Attempts(responses, maxRetries, attempt + 1));
      attempt := attempt + 1;
    }
    price, attempts := None, attempt;
  }

  /**
   * The adapter never makes more than `maxRetries` attempts and never pauses
   * after its last one: there is at most one pause per attempt that is
   * followed by another.
   */
  lemma {:induction false} AttemptsBounded(responses: nat -> Response, maxRetries: int, k: nat)
    requires k <= MaxInt(maxRetries, 0)
    ensures var r := Attempts(responses, maxRetries, k);
      && k <= r.attempts <= MaxInt(maxRetries, 0)
      && (k < maxRetries ==> k < r.attempts)
      && (r.sleeps == [] || k + |r.sleeps| < r.attempts)
    decreases maxRetries - k
  {
    if k < maxRetries && !responses(k).Ticker? {
      AttemptsBounded(responses, maxRetries, k + 1);
    }
  }

  /**
   * A returned price is the price of the last attempt made, and no earlier
   * attempt produced one; no price means every allowed attempt was made and
   * none produced one. The adapter never invents a price.
   */
  lemma {:induction false} AttemptsFirstPrice(responses: nat -> Response, maxRetries: int, k: nat)
    requires k <= MaxInt(maxRetries, 0)
    ensures var r := Attempts(responses, maxRetries, k);
      && (r.price.Some? ==>
            && k < r.attempts <= maxRetries
            && responses(r.attempts - 1) == Ticker(r.price.value)
            && forall j :: k <= j < r.attempts - 1 ==> !responses(j).Ticker?)
      && (r.price.None? ==>
            && r.attempts == MaxInt(maxRetries, 0)
            && forall j :: k <= j < maxRetries ==> !responses(j).Ticker?)
    decreases maxRetries - k
  {
    if k < maxRetries && !responses(k).Ticker? {
      AttemptsFirstPrice(responses, maxRetries, k + 1);
    }
  }

  /** The pauses owed after attempts `k` up to, not including, `n`, each by `Pause`. */
  function PausesBetween(responses: nat -> Response, k: nat, n: int): seq<nat>
    decreases n - k
  {
    if k >= n then [] else Pause(responses(k), k) + PausesBetween(responses, k + 1, n)
  }

  /**
   * The general pause rule: the pauses taken are, in order, the pause owed
   * after each attempt but the last, 2^j seconds after a rate limit on
   * attempt j, 1 second after another failure and none after a malformed answer.
   */
  lemma {:induction false} AttemptsPauses(responses: nat -> Response, maxRetries: int, k: nat)
    requires k <= MaxInt(maxRetries, 0)
    ensures var r := Attempts(responses, maxRetries, k);
      r.sleeps == PausesBetween(responses, k, r.attempts - 1)
    decreases maxRetries - k
  {
    if k < maxRetries && !responses(k).Ticker? {
      AttemptsPauses(responses, maxRetries, k + 1);
      AttemptsBounded(responses, maxRetries, k + 1);
    }
  }

  /** Under a persistent rate limit the pauses double: 1, 2, 4, ... seconds, one fewer than the attempts. */
  lemma {:induction false} RateLimitBackoff(responses: nat -> Response, maxRetries: int, k: nat)
    requires k <= MaxInt(maxRetries, 0)
    requires forall j :: k <= j < maxRetries ==> responses(j) == RateLimited
    ensures var r := Attempts(responses, maxRetries, k);
      && r.price == None
      && r.attempts == MaxInt(maxRetries, 0)
      && |r.sleeps| == (if k < maxRetries then maxRetries - 1 - k else 0)
      && forall i :: 0 <= i < |r.sleeps| ==> r.sleeps[i] == Pow2(k + i)
    decreases maxRetries - k
  {
    if k < maxRetries {
      RateLimitBackoff(responses, maxRetries, k + 1);
      var rest := Attempts(responses, maxRetries, k + 1);
      var r := Attempts(responses, maxRetries, k);
      if k < maxRetries - 1 {
        assert r.sleeps == [Pow2(k)] + rest.sleeps;
        forall i | 0 <= i < |r.sleeps| ensures r.sleeps[i] == Pow2(k + i) {
          if i > 0 { assert r.sleeps[i] == rest.sleeps[i - 1]; }
        }
      }
    }
  }

  /** Three rate-limit answers in a row: three attempts, pauses of 1 s and 2 s, no price. */
  lemma ThreeRateLimits(responses: nat -> Response)
    requires responses(0) == RateLimited && responses(1) == RateLimited && responses(2) == RateLimited
    ensures Attempts(responses, DefaultRetries, 0) == Fetch(None, 3, [1, 2])
  {
    RateLimitBackoff(responses, DefaultRetries, 0);
  }
}
