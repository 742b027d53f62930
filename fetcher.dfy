/**
  `fetchWithTimeout`: one request, repeated after a 429 or 5xx response while retries
  remain. The upstream is a function from the request's ordinal (0, 1, ...) to what that
  request gives, so the model fixes nothing about the network; the timer, the abort and
  the 300 ms pause are not modelled, and a timeout shows up as a thrown request.
*/
module Fetcher {

  const DefaultTimeoutMs: nat := 8000
  const DefaultRetries: nat := 1
  const UserAgent: string := "youreview-bot"

  /** One request: a response with its status and parsed body, or a thrown error. */
  datatype Attempt<T> = Responded(status: int, body: T) | Threw(message: string)

  /** `res.ok` */
  predicate Ok(status: int) {
    200 <= status <= 299
  }

  /** The statuses worth another try: 429 and every status from 500 up. */
  predicate Transient(status: int) {
    !Ok(status) && (status == 429 || status >= 500)
  }

  /** The request's final outcome and how many requests were made in all. */
  datatype Final<T> = Final(outcome: Attempt<T>, requests: nat)

  /**
    The call starting with request number `k` and `retries` retries left. A thrown
    request is never retried; a response is retried exactly when it is transient and
    a retry is left.
  */
  function RunFrom<T>(upstream: nat -> Attempt<T>, k: nat, retries: nat): (f: Final<T>)
    decreases retries
    ensures 1 <= f.requests <= retries + 1
    ensures f.outcome == upstream(k + f.requests - 1)
    ensures forall j :: k <= j < k + f.requests - 1 ==>
      upstream(j).Responded? && Transient(upstream(j).status)
    ensures f.outcome.Threw? || !Transient(f.outcome.status) || f.requests == retries + 1
  {
    var a := upstream(k);
    if a.Responded? && Transient(a.status) && retries > 0 then
      var rest := RunFrom(upstream, k + 1, retries - 1);
      Final(rest.outcome, rest.requests + 1)
    else
      Final(a, 1)
  }

  /** `fetchWithTimeout(url, init, { retries })` */
  function Fetch<T>(upstream: nat -> Attempt<T>, retries: nat): (f: Final<T>)
    ensures 1 <= f.requests <= retries + 1
    ensures f.outcome == upstream(f.requests - 1)
  {
    RunFrom(upstream, 0, retries)
  }

  /** With the default single retry at most two requests are made. */
  lemma DefaultMakesAtMostTwoRequests<T>(upstream: nat -> Attempt<T>)
    ensures Fetch(upstream, DefaultRetries).requests <= 2
  {
  }

  /** An ok response, a 4xx other than 429, or a thrown request ends the call at once. */
  lemma {:induction false} FinalAfterFirst<T>(upstream: nat -> Attempt<T>, retries: nat)
    requires upstream(0).Threw? || !Transient(upstream(0).status)
    ensures Fetch(upstream, retries) == Final(upstream(0), 1)
  {
  }

  /** Transient failures are retried until the retries run out. */
  lemma {:induction false} PersistentFailureUsesEveryRetry<T>(upstream: nat -> Attempt<T>, k: nat, retries: nat)
    requires forall j :: k <= j ==> upstream(j).Responded? && Transient(upstream(j).status)
    ensures RunFrom(upstream, k, retries).requests == retries + 1
    decreases retries
  {
    if retries > 0 {
      PersistentFailureUsesEveryRetry(upstream, k + 1, retries - 1);
    }
  }

  /**
    The headers sent: the default `User-Agent` first, then the caller's headers, which
    win on the same name.
  */
  function MergeHeaders(init: map<string, string>): (h: map<string, string>)
    ensures h.Keys == init.Keys + {"User-Agent"}
    ensures forall name :: name in init ==> h[name] == init[name]
    ensures "User-Agent" !in init ==> h["User-Agent"] == UserAgent
  {
    map["User-Agent" := UserAgent] + init
  }
}
